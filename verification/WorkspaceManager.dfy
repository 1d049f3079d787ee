/** LocalManager of pkg/workspace/local.go: accounting, quota and restore over whole runs. */
module WorkspaceManager {
  import opened Common
  import opened Listing
  import opened WorkspaceTree
  import opened Workspace

  /** The workspace on disk, with the backup a restore may leave, and the two usage counters. */
  datatype Ws = Ws(root: Option<Tree>, backup: Option<Tree>, totalBytes: int, fileCount: int)

  /** A workspace over the files found under its root. */
  ghost function Opened(found: Tree): Ws { Ws(Some(found), None, Total(found.files), |found.files|) }

  /** Where the disk fails during a restore, and the counts a failed recount stops with. */
  datatype Faults = Faults(setup: bool, stage: bool, activate: bool, rollback: bool, recount: bool, bytesSeen: nat, filesSeen: nat)

  // ---------------------------------------------------------------- operations

  function WriteWs(w: Ws, lim: Limits, p: Path, c: Bytes): (Ws, Outcome)
    requires w.root.Some?
  {
    var t := w.root.value;
    var isNew := p !in t.files && p !in t.dirs;
    var newTotal := w.totalBytes - (if p in t.files then |t.files[p]| else 0) + |c|;
    if p in t.dirs then (w, Refused)
    else if newTotal > lim.maxBytes then (w, QuotaBytes)
    else if isNew && w.fileCount + 1 > lim.maxFiles then (w, QuotaFiles)
    else
      match PutFile(t, p, c)
      case None => (w, Refused)
      case Some(u) => (w.(root := Some(u), totalBytes := newTotal, fileCount := w.fileCount + if isNew then 1 else 0), Fine)
  }

  ghost function DeleteWs(w: Ws, p: Path): (Ws, Outcome)
    requires w.root.Some?
  {
    var t := w.root.value;
    if p in t.dirs then
      if p == [] then (w, Refused)
      else
        var u := RemoveAll(t, p);
        (w.(root := Some(u), totalBytes := Total(u.files), fileCount := |u.files|), Fine)
    else if p in t.files then
      (w.(root := Some(t.(files := t.files - {p})), totalBytes := w.totalBytes - |t.files[p]|, fileCount := w.fileCount - 1), Fine)
    else (w, Refused)
  }

  /** The tree an archive stages, if it is readable, small enough and within quota. */
  function Staged(lim: Limits, a: Archive): Option<Tree> {
    var x := Extract(lim, a.entries);
    if a.size > lim.maxArchive || !a.readable || !x.ok then None else Some(x.tree)
  }

  ghost function RestoreWs(w: Ws, lim: Limits, a: Archive, f: Faults): (Ws, bool) {
    match Staged(lim, a)
    case None => (w, false)
    case Some(t) =>
      if f.setup then (w, false)
      else if w.root.Some? && f.stage then (w.(backup := None), false)
      else if f.activate then
        if w.root.Some? && f.rollback then (w.(root := None, backup := w.root), false)
        else (w.(backup := None), false)
      else if f.recount then (Ws(Some(t), None, f.bytesSeen, f.filesSeen), false)
      else (Ws(Some(t), None, Total(t.files), |t.files|), true)
  }

  // ---------------------------------------------------------------- what an operation leaves

  /**
    A write is fine exactly where the path is neither the root nor a directory, no file lies above it
    and both quotas hold. Then the file holds the content, its parents are directories and the counters
    follow; otherwise nothing changes.
   */
  ghost predicate WriteRight(w: Ws, w': Ws, lim: Limits, p: Path, c: Bytes, out: Outcome)
    requires w.root.Some?
  {
    var t, isOld := w.root.value, p in w.root.value.files;
    var total := w.totalBytes + |c| - if isOld then |t.files[p]| else 0;
    && (out == Fine <==>
         && p != [] && p !in t.dirs && (forall q :: q in t.files ==> !(q < p))
         && total <= lim.maxBytes && (isOld || w.fileCount < lim.maxFiles))
    && (out == QuotaBytes <==> p !in t.dirs && total > lim.maxBytes)
    && (out == QuotaFiles <==> p !in t.dirs && total <= lim.maxBytes && !isOld && w.fileCount >= lim.maxFiles)
    && (out != Fine ==> w' == w)
    && (out == Fine ==>
         && w'.root.Some? && w'.root.value.files == t.files[p := c]
         && (forall q :: q in w'.root.value.dirs <==> q in t.dirs || q < p)
         && w'.totalBytes == total && w'.fileCount == w.fileCount + (if isOld then 0 else 1) && w'.backup == w.backup)
  }

  lemma WriteOutcome(w: Ws, lim: Limits, p: Path, c: Bytes)
    requires w.root.Some?
    ensures var (w', out) := WriteWs(w, lim, p, c); WriteRight(w, w', lim, p, c, out)
  {
    hide PutFile;
    PutFileIs(w.root.value, p, c);
  }

  /**
    A delete is fine exactly on a file or on a directory that is not the root. Then the path and what
    lies below it are gone, the rest is as it was and the counters are those of the rest; otherwise
    nothing changes.
   */
  ghost predicate DeleteRight(w: Ws, w': Ws, p: Path, out: Outcome)
    requires w.root.Some?
  {
    var t := w.root.value;
    && (out == Fine <==> p in t.files || (p in t.dirs && p != []))
    && (out != Fine ==> out == Refused && w' == w)
    && (out == Fine ==>
         && w'.root.Some? && w'.backup == w.backup
         && (forall q :: q in w'.root.value.files <==> q in t.files && !(p <= q))
         && (forall q :: q in w'.root.value.files ==> w'.root.value.files[q] == t.files[q])
         && (forall q :: q in w'.root.value.dirs <==> q in t.dirs && !(p <= q))
         && w'.totalBytes == Total(w'.root.value.files) && w'.fileCount == |w'.root.value.files|)
  }

  lemma DeleteOutcome(w: Ws, p: Path)
    requires Exact(w)
    ensures var (w', out) := DeleteWs(w, p); DeleteRight(w, w', p, out)
  {
    hide Total, WellFormed;
    var t := w.root.value;
    if p in t.files {
      RemoveFileOk(t, p);
      FileNotDir(t, p);
      forall q | p <= q && q != p ensures q !in t.files && q !in t.dirs {
        FileIsLeaf(t, p, q);
      }
    }
  }

  lemma FileNotDir(t: Tree, p: Path)
    requires WellFormed(t) && p in t.files
    ensures p !in t.dirs
  {
  }

  // ---------------------------------------------------------------- exact accounting within quota

  ghost predicate Exact(w: Ws) {
    && w.root.Some? && WellFormed(w.root.value)
    && w.totalBytes == Total(w.root.value.files) && w.fileCount == |w.root.value.files|
  }

  ghost predicate InQuota(w: Ws, lim: Limits) {
    w.fileCount >= 1 ==> w.totalBytes <= lim.maxBytes && w.fileCount <= lim.maxFiles
  }

  ghost predicate WsOk(w: Ws, lim: Limits) { Exact(w) && InQuota(w, lim) }

  lemma WriteKeeps(w: Ws, lim: Limits, p: Path, c: Bytes)
    requires Exact(w)
    ensures Exact(WriteWs(w, lim, p, c).0) && (InQuota(w, lim) ==> InQuota(WriteWs(w, lim, p, c).0, lim))
  {
    hide WellFormed, Total, PutFile;
    var t := w.root.value;
    if PutFile(t, p, c).Some? {
      PutFileOk(t, p, c);
      TotalPut(t.files, p, c);
      CountPut(t.files, p, c);
      if p in t.files {
        TotalWithout(t.files, p);
      } else {
        assert t.files - {p} == t.files;
      }
    }
  }

  lemma DeleteKeeps(w: Ws, lim: Limits, p: Path)
    requires Exact(w)
    ensures Exact(DeleteWs(w, p).0) && (InQuota(w, lim) ==> InQuota(DeleteWs(w, p).0, lim))
  {
    hide WellFormed, Total, RemoveAll;
    var t := w.root.value;
    if p in t.dirs {
      if p != [] {
        RemoveAllOk(t, p);
        RemoveAllShrinks(t, p);
      }
    } else if p in t.files {
      RemoveFileOk(t, p);
    }
  }

  /** The faults after which the accounting may be off: a failed roll-back and a failed recount. */
  predicate Survivable(f: Faults) { !(f.activate && f.rollback) && !f.recount }

  lemma RestoreKeeps(w: Ws, lim: Limits, a: Archive, f: Faults)
    requires Exact(w) && Survivable(f)
    ensures Exact(RestoreWs(w, lim, a, f).0) && (InQuota(w, lim) ==> InQuota(RestoreWs(w, lim, a, f).0, lim))
  {
    ExtractBounded(lim, a.entries);
    hide WellFormed, Total, Extract;
  }

  datatype Op = WriteOp(path: Path, content: Bytes) | DeleteOp(path: Path) | RestoreOp(archive: Archive, faults: Faults)

  ghost function Step(w: Ws, lim: Limits, op: Op): Ws
    requires w.root.Some?
  {
    match op
    case WriteOp(p, c) => WriteWs(w, lim, p, c).0
    case DeleteOp(p) => DeleteWs(w, p).0
    case RestoreOp(a, f) => RestoreWs(w, lim, a, f).0
  }

  /** No restore of the run meets a failed roll-back or a failed recount. */
  ghost predicate Legal(ops: seq<Op>) { forall op :: op in ops && op.RestoreOp? ==> Survivable(op.faults) }

  lemma StepKeeps(w: Ws, lim: Limits, op: Op)
    requires Exact(w) && (op.RestoreOp? ==> Survivable(op.faults))
    ensures Exact(Step(w, lim, op)) && (InQuota(w, lim) ==> InQuota(Step(w, lim, op), lim))
  {
    hide WellFormed, Total, WriteWs, DeleteWs, RestoreWs;
    match op
    case WriteOp(p, c) => WriteKeeps(w, lim, p, c);
    case DeleteOp(p) => DeleteKeeps(w, lim, p);
    case RestoreOp(a, f) => RestoreKeeps(w, lim, a, f);
  }

  ghost function Run(lim: Limits, found: Tree, ops: seq<Op>): (w: Ws)
    requires WellFormed(found) && Legal(ops)
    ensures Exact(w) && (InQuota(Opened(found), lim) ==> InQuota(w, lim))
    decreases |ops|
  {
    if ops == [] then Opened(found)
    else
      var w, op := Run(lim, found, ops[..|ops| - 1]), ops[|ops| - 1];
      assert op in ops;
      StepKeeps(w, lim, op); Step(w, lim, op)
  }

  /** An empty root is fine under any limits. */
  lemma FreshOk(lim: Limits)
    ensures WsOk(Opened(BARE), lim)
  {
    BareOk();
  }

  // ---------------------------------------------------------------- restore

  /** A restore succeeds exactly when the archive stages and no fault strikes; otherwise the old tree stays, with two exceptions. */
  lemma RestoreOutcome(w: Ws, lim: Limits, a: Archive, f: Faults)
    ensures var (w', ok) := RestoreWs(w, lim, a, f); var staged := Staged(lim, a);
      && (staged.Some? <==> a.size <= lim.maxArchive && a.readable && Extract(lim, a.entries).ok)
      && (staged.Some? ==> staged.value == Extract(lim, a.entries).tree)
      && (ok <==> staged.Some? && !f.setup && !(w.root.Some? && f.stage) && !f.activate && !f.recount)
      && (w'.backup == None || w' == w || (f.activate && f.rollback && !ok))
      && (ok ==> w'.root == staged && w'.totalBytes == Total(staged.value.files) && w'.fileCount == |staged.value.files|)
      && (!ok ==>
           || (w'.root == w.root && w'.totalBytes == w.totalBytes && w'.fileCount == w.fileCount)
           || (f.activate && f.rollback && w'.root == None && w'.backup == w.root)
           || (f.recount && w'.root == staged && w'.backup == None))
  {
    hide Extract, Total;
  }

  /** Restoring a snapshot of a workspace under limits that are no smaller gives back the same tree and usage. */
  lemma RestoreSnapshot(w: Ws, lim: Limits, now: Ws, lim': Limits, a: Archive, f: Faults)
    requires WsOk(w, lim) && lim.maxBytes <= lim'.maxBytes && lim.maxFiles <= lim'.maxFiles
    requires SnapshotOf(w.root.value, a.entries) && a.readable && a.size <= lim'.maxArchive
    requires !f.setup && !f.stage && !f.activate && !f.recount
    ensures var (w', ok) := RestoreWs(now, lim', a, f);
      ok && w'.root == w.root && w'.totalBytes == w.totalBytes && w'.fileCount == w.fileCount
  {
    SnapshotRoundTrip(w.root.value, a.entries, lim');
    hide Extract, Total, SnapshotOf;
  }

  // ---------------------------------------------------------------- the object

  ghost function Among(files: map<Path, Bytes>, paths: seq<Path>): map<Path, Bytes> {
    map p | p in files && p in paths :: files[p]
  }

  lemma AmongStep(files: map<Path, Bytes>, paths: seq<Path>, i: nat)
    requires i < |paths| && NoDup(paths) && paths[i] in files
    ensures Total(Among(files, paths[..i + 1])) == Total(Among(files, paths[..i])) + |files[paths[i]]|
    ensures |Among(files, paths[..i + 1])| == |Among(files, paths[..i])| + 1
  {
    hide Total;
    var p := paths[i];
    var before := Among(files, paths[..i]);
    assert paths[..i + 1] == paths[..i] + [p];
    assert p !in paths[..i];
    assert Among(files, paths[..i + 1]) == before[p := files[p]];
    TotalPut(before, p, files[p]);
    CountPut(before, p, files[p]);
    assert before - {p} == before;
  }

  lemma AmongEnds(files: map<Path, Bytes>, paths: seq<Path>)
    requires forall p :: p in paths <==> p in files
    ensures Among(files, paths[..0]) == map[] && Among(files, paths[..|paths|]) == files
  {
    assert paths[..|paths|] == paths;
  }

  /** The walk that counts files and adds up their sizes. */
  method CountFiles(files: map<Path, Bytes>) returns (total: int, count: int)
    ensures total == Total(files) && count == |files|
  {
    var paths := Enumerate(files.Keys);
    total, count := 0, 0;
    AmongEnds(files, paths);
    hide Among;
    for i := 0 to |paths|
      invariant total == Total(Among(files, paths[..i])) && count == |Among(files, paths[..i])|
    {
      assert paths[i] in paths;
      AmongStep(files, paths, i);
      total := total + |files[paths[i]]|;
      count := count + 1;
    }
  }

  class LocalManager {
    var root: Option<Tree>
    var backup: Option<Tree>
    var totalBytes: int
    var fileCount: int
    const lim: Limits

    ghost function Value(): Ws
      reads this
    {
      Ws(root, backup, totalBytes, fileCount)
    }

    /** A manager over what is found under its root, which may already be over quota. */
    constructor (lim: Limits, found: Tree)
      ensures Value() == Opened(found) && this.lim == lim
    {
      this.lim := lim;
      root, backup, totalBytes, fileCount := Some(found), None, 0, 0;
      new;
      Recount();
    }

    method Recount()
      requires root.Some?
      modifies this`totalBytes, this`fileCount
      ensures totalBytes == Total(root.value.files) && fileCount == |root.value.files|
    {
      totalBytes, fileCount := CountFiles(root.value.files);
    }

    method Write(p: Path, c: Bytes) returns (err: Outcome)
      requires root.Some?
      modifies this
      ensures (Value(), err) == WriteWs(old(Value()), lim, p, c)
      ensures WriteRight(old(Value()), Value(), lim, p, c, err)
    {
      WriteOutcome(Value(), lim, p, c);
      hide WriteRight;
      var t := root.value;
      if p in t.dirs {
        return Refused;
      }
      var oldSize, isNew := 0, true;
      if p in t.files {
        oldSize, isNew := |t.files[p]|, false;
      }
      var newTotal := totalBytes - oldSize + |c|;
      if newTotal > lim.maxBytes {
        return QuotaBytes;
      }
      if isNew && fileCount + 1 > lim.maxFiles {
        return QuotaFiles;
      }
      var u := PutFile(t, p, c);
      if u.None? {
        return Refused;
      }
      root := u;
      totalBytes := newTotal;
      if isNew {
        fileCount := fileCount + 1;
      }
      return Fine;
    }

    method Delete(p: Path) returns (err: Outcome)
      requires root.Some?
      modifies this
      ensures (Value(), err) == DeleteWs(old(Value()), p)
      ensures old(Exact(Value())) ==> DeleteRight(old(Value()), Value(), p, err)
    {
      if Exact(Value()) {
        DeleteOutcome(Value(), p);
      }
      hide DeleteRight, Exact;
      var t := root.value;
      if p in t.dirs {
        if p == [] {
          return Refused;
        }
        root := Some(RemoveAll(t, p));
        Recount();
        return Fine;
      }
      if p !in t.files {
        return Refused;
      }
      root := Some(t.(files := t.files - {p}));
      totalBytes := totalBytes - |t.files[p]|;
      fileCount := fileCount - 1;
      return Fine;
    }

    method Restore(a: Archive, f: Faults) returns (ok: bool)
      modifies this
      ensures (Value(), ok) == RestoreWs(old(Value()), lim, a, f)
    {
      if f.setup {
        return false;
      }
      var x := ExtractTarGz(lim, a.entries);
      if !x.ok || !a.readable || a.size > lim.maxArchive {
        return false;
      }
      backup := None;
      var hadRoot := root.Some?;
      if hadRoot {
        if f.stage {
          return false;
        }
        root, backup := None, root;
      }
      if f.activate {
        if hadRoot {
          if f.rollback {
            return false;
          }
          root, backup := backup, None;
        }
        return false;
      }
      root := Some(x.tree);
      if hadRoot {
        backup := None;
      }
      if f.recount {
        totalBytes, fileCount := f.bytesSeen, f.filesSeen;
        return false;
      }
      Recount();
      return true;
    }
  }
}

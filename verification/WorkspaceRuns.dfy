/** What a file of a LocalManager (pkg/workspace/local.go) holds after any run of operations. */
module WorkspaceRuns {
  import opened Common
  import opened WorkspaceTree
  import opened Workspace
  import opened WorkspaceManager

  /** The operation reports success. */
  ghost predicate Succeeds(w: Ws, lim: Limits, op: Op)
    requires w.root.Some?
  {
    match op
    case WriteOp(p, c) => WriteWs(w, lim, p, c).1 == Fine
    case DeleteOp(p) => DeleteWs(w, p).1 == Fine
    case RestoreOp(a, f) => RestoreWs(w, lim, a, f).1
  }

  /** A write touches its path, a delete its path and what lies below, a restore everything. */
  predicate Aims(op: Op, p: Path) {
    match op
    case WriteOp(q, _) => q == p
    case DeleteOp(q) => q <= p
    case RestoreOp(_, _) => true
  }

  /** Operation i of the run succeeds and touches the path. */
  ghost predicate Touches(lim: Limits, found: Tree, ops: seq<Op>, i: nat, p: Path)
    requires WellFormed(found) && Legal(ops) && i < |ops|
  {
    Aims(ops[i], p) && Succeeds(Run(lim, found, ops[..i]), lim, ops[i])
  }

  /** What a successful operation leaves at a path it touches. */
  ghost function Leaves(lim: Limits, op: Op, p: Path): Option<Bytes> {
    match op
    case WriteOp(_, c) => Some(c)
    case DeleteOp(_) => None
    case RestoreOp(a, _) => match Staged(lim, a) { case None => None case Some(t) => FileAt(t, p) }
  }

  lemma StepAt(w: Ws, lim: Limits, op: Op, p: Path)
    requires Exact(w) && (op.RestoreOp? ==> Survivable(op.faults))
    ensures Step(w, lim, op).root.Some?
    ensures FileAt(Step(w, lim, op).root.value, p) ==
      if Aims(op, p) && Succeeds(w, lim, op) then Leaves(lim, op, p) else FileAt(w.root.value, p)
  {
    hide WriteWs, DeleteWs, RestoreWs, Total, WellFormed, Staged;
    match op
    case WriteOp(q, c) => WriteOutcome(w, lim, q, c);
    case DeleteOp(q) => DeleteOutcome(w, q);
    case RestoreOp(a, f) => RestoreOutcome(w, lim, a, f);
  }

  /** One more operation: what it leaves where it succeeds and touches the path, otherwise what was there. */
  lemma RunAt(lim: Limits, found: Tree, ops: seq<Op>, p: Path)
    requires WellFormed(found) && Legal(ops) && ops != []
    ensures var n := |ops| - 1;
      FileAt(Run(lim, found, ops).root.value, p) ==
      if Touches(lim, found, ops, n, p) then Leaves(lim, ops[n], p) else FileAt(Run(lim, found, ops[..n]).root.value, p)
  {
    hide WellFormed, InQuota, Step, FileAt, Leaves, Aims, Succeeds, Total;
    var n := |ops| - 1;
    assert ops[n] in ops;
    StepAt(Run(lim, found, ops[..n]), lim, ops[n], p);
  }

  /**
    After any run, a file holds what the last successful operation that touched it left: a write its
    content, a delete of it or of a directory above it nothing, a restore what its archive stages.
    Operations after that one which failed, or which touch other paths, make no difference.
   */
  lemma {:induction false} LastTouch(lim: Limits, found: Tree, ops: seq<Op>, i: nat, p: Path)
    requires WellFormed(found) && Legal(ops) && i < |ops| && Touches(lim, found, ops, i, p)
    requires forall j :: i < j < |ops| ==> !Touches(lim, found, ops, j, p)
    ensures FileAt(Run(lim, found, ops).root.value, p) == Leaves(lim, ops[i], p)
    decreases |ops|
  {
    hide Run, WellFormed, FileAt, Leaves, Aims, Succeeds, Exact, InQuota;
    RunAt(lim, found, ops, p);
    var n := |ops| - 1;
    if i < n {
      Shorter(lim, found, ops, p);
      LastTouch(lim, found, ops[..n], i, p);
    }
  }

  lemma Shorter(lim: Limits, found: Tree, ops: seq<Op>, p: Path)
    requires WellFormed(found) && Legal(ops) && ops != []
    ensures var most := ops[..|ops| - 1];
      Legal(most) && forall j :: 0 <= j < |most| ==> (Touches(lim, found, most, j, p) <==> Touches(lim, found, ops, j, p))
  {
    hide Run, WellFormed, Aims, Succeeds, Exact, InQuota;
    var most := ops[..|ops| - 1];
    forall j | 0 <= j < |most| ensures Touches(lim, found, most, j, p) <==> Touches(lim, found, ops, j, p) {
      assert most[..j] == ops[..j];
    }
  }

  /** A path that no successful operation touched holds what was found there. */
  lemma {:induction false} NeverTouched(lim: Limits, found: Tree, ops: seq<Op>, p: Path)
    requires WellFormed(found) && Legal(ops)
    requires forall j :: 0 <= j < |ops| ==> !Touches(lim, found, ops, j, p)
    ensures FileAt(Run(lim, found, ops).root.value, p) == FileAt(found, p)
    decreases |ops|
  {
    if ops != [] {
      hide Run, WellFormed, FileAt, Leaves, Aims, Succeeds, Exact, InQuota;
      RunAt(lim, found, ops, p);
      Shorter(lim, found, ops, p);
      NeverTouched(lim, found, ops[..|ops| - 1], p);
    }
  }
}

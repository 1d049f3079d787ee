/**
  The stream chunker of pkg/stream/chunker.go. drainLocked releases the lock while it calls the
  flush function, so the program is a set of locked regions that may interleave in any order:
  the body of Write, Flush or the timer, and Stop up to the release, and the part of drainLocked
  after the call.
 */
module Chunker {
  import opened Common

  const MAX_HISTORY := 8

  datatype Core = Core(
    buf: Bytes,
    timer: bool,                // a timer is armed
    stopped: bool,
    lastErr: Option<string>,
    errorCount: nat,
    history: seq<string>)

  const FRESH := Core([], false, false, None, 0, [])

  // ---------------------------------------------------------------- locked regions

  /** drainLocked up to the release of the lock; the second part is handed to the flush function. */
  function DrainRegion(c: Core): (Core, Option<Bytes>) {
    if |c.buf| == 0 then (c, None) else (c.(buf := [], timer := false), Some(c.buf))
  }

  function WriteRegion(c: Core, flushBytes: int, data: Bytes): (Core, Option<Bytes>) {
    if c.stopped then (c, None)
    else
      var grown := c.(buf := c.buf + data, timer := true);
      if |grown.buf| >= flushBytes then DrainRegion(grown) else (grown, None)
  }

  function StopRegion(c: Core): (Core, Option<Bytes>) { DrainRegion(c.(stopped := true, timer := false)) }

  function Suffix<T>(s: seq<T>, n: nat): seq<T> { if |s| > n then s[|s| - n..] else s }

  /** drainLocked after the flush function has returned. */
  function DoneRegion(c: Core, err: Option<string>): Core {
    match err
    case None => c.(lastErr := None)
    case Some(text) => c.(lastErr := err, errorCount := c.errorCount + 1, history := Suffix(c.history + [text], MAX_HISTORY))
  }

  // ---------------------------------------------------------------- interleavings

  datatype Op =
    | WriteOp(data: Bytes)
    | FlushOp                                    // Flush, or a timer that fired now or earlier
    | StopOp
    | DoneOp(chunk: Bytes, err: Option<string>)  // some flush call returns

  /** The chunker with everything it has handed out: chunks in drain order, and flush calls still running. */
  datatype World = World(core: Core, drained: seq<Bytes>, flushing: multiset<Bytes>)

  function Handed(w: World, r: (Core, Option<Bytes>)): World {
    match r.1
    case None => w.(core := r.0)
    case Some(chunk) => World(r.0, w.drained + [chunk], w.flushing + multiset{chunk})
  }

  function Step(w: World, flushBytes: int, op: Op): World {
    match op
    case WriteOp(data) => Handed(w, WriteRegion(w.core, flushBytes, data))
    case FlushOp => Handed(w, DrainRegion(w.core))
    case StopOp => Handed(w, StopRegion(w.core))
    case DoneOp(chunk, err) => w.(core := DoneRegion(w.core, err), flushing := w.flushing - multiset{chunk})
  }

  function Run(flushBytes: int, ops: seq<Op>): World {
    if ops == [] then World(FRESH, [], multiset{})
    else Step(Run(flushBytes, ops[..|ops| - 1]), flushBytes, ops[|ops| - 1])
  }

  /** An encoded event ends in a newline, and only running flush calls return. */
  ghost predicate Legal(flushBytes: int, ops: seq<Op>)
    decreases |ops|
  {
    ops == [] ||
    (var most, op := ops[..|ops| - 1], ops[|ops| - 1];
     Legal(flushBytes, most) &&
     match op
     case WriteOp(data) => data != []
     case DoneOp(chunk, _) => chunk in Run(flushBytes, most).flushing
     case _ => true)
  }

  /** The writes made before the first Stop. */
  function Accepted(ops: seq<Op>): seq<Bytes> {
    if ops == [] then []
    else
      var most, op := ops[..|ops| - 1], ops[|ops| - 1];
      if op.WriteOp? && StopOp !in most then Accepted(most) + [op.data] else Accepted(most)
  }

  function Flat(chunks: seq<Bytes>): Bytes {
    if chunks == [] then [] else Flat(chunks[..|chunks| - 1]) + chunks[|chunks| - 1]
  }

  // ---------------------------------------------------------------- no event is lost, reordered or split

  /** Chunk i is the non-empty run of events from cuts[i] to cuts[i + 1]. */
  ghost predicate Group(events: seq<Bytes>, drained: seq<Bytes>, cuts: seq<nat>, i: nat) {
    i < |drained| && i + 1 < |cuts| && cuts[i] < cuts[i + 1] <= |events| && drained[i] == Flat(events[cuts[i]..cuts[i + 1]])
  }

  /** cuts[i] is the number of events that the first i chunks are made of. */
  ghost predicate CutAt(events: seq<Bytes>, drained: seq<Bytes>, buf: Bytes, cuts: seq<nat>) {
    && |cuts| == |drained| + 1 && cuts[0] == 0 && cuts[|drained|] <= |events|
    && (forall i :: 0 <= i < |drained| ==> Group(events, drained, cuts, i))
    && buf == Flat(events[cuts[|drained|]..])
  }

  /** The events fall into consecutive non-empty groups, one per chunk, and what remains is the buffer. */
  ghost predicate WholeEvents(events: seq<Bytes>, drained: seq<Bytes>, buf: Bytes) {
    exists cuts: seq<nat> :: CutAt(events, drained, buf, cuts)
  }

  lemma AppendEvent(events: seq<Bytes>, drained: seq<Bytes>, buf: Bytes, data: Bytes)
    requires WholeEvents(events, drained, buf)
    ensures WholeEvents(events + [data], drained, buf + data)
  {
    var cuts: seq<nat> :| CutAt(events, drained, buf, cuts);
    var more, at := events + [data], cuts[|drained|];
    forall i | 0 <= i < |drained| ensures Group(more, drained, cuts, i) {
      assert Group(events, drained, cuts, i);
      assert more[cuts[i]..cuts[i + 1]] == events[cuts[i]..cuts[i + 1]];
    }
    assert more[at..][..|more| - at - 1] == events[at..];
    assert CutAt(more, drained, buf + data, cuts);
  }

  lemma CutBuffer(events: seq<Bytes>, drained: seq<Bytes>, buf: Bytes)
    requires WholeEvents(events, drained, buf) && buf != []
    ensures WholeEvents(events, drained + [buf], [])
  {
    var cuts: seq<nat> :| CutAt(events, drained, buf, cuts);
    var n := |events|;
    var cuts', drained' := cuts + [n], drained + [buf];
    assert events[cuts[|drained|]..n] == events[cuts[|drained|]..];
    assert events[n..] == [];
    forall i | 0 <= i < |drained'| ensures Group(events, drained', cuts', i) {
      if i < |drained| {
        assert Group(events, drained, cuts, i);
        assert cuts'[i] == cuts[i] && cuts'[i + 1] == cuts[i + 1] && drained'[i] == drained[i];
      } else {
        assert cuts'[i] == cuts[|drained|];
      }
    }
    assert CutAt(events, drained', [], cuts');
  }

  lemma {:induction false} FlatJoin(a: seq<Bytes>, b: seq<Bytes>)
    ensures Flat(a + b) == Flat(a) + Flat(b)
    decreases |b|
  {
    if b == [] {
      assert a + b == a;
    } else {
      var n := |b| - 1;
      assert (a + b)[..|a| + n] == a + b[..n];
      FlatJoin(a, b[..n]);
    }
  }

  lemma {:induction false} CutsJoin(events: seq<Bytes>, drained: seq<Bytes>, cuts: seq<nat>, k: nat)
    requires |cuts| == |drained| + 1 && cuts[0] == 0 && k <= |drained|
    requires forall i :: 0 <= i < |drained| ==> Group(events, drained, cuts, i)
    ensures cuts[k] <= |events| && Flat(drained[..k]) == Flat(events[..cuts[k]])
  {
    if k > 0 {
      CutsJoin(events, drained, cuts, k - 1);
      assert Group(events, drained, cuts, k - 1);
      assert drained[..k][..k - 1] == drained[..k - 1];
      FlatJoin(events[..cuts[k - 1]], events[cuts[k - 1]..cuts[k]]);
      assert events[..cuts[k - 1]] + events[cuts[k - 1]..cuts[k]] == events[..cuts[k]];
    }
  }

  /** Hence the chunks followed by the buffer are all the bytes accepted. */
  lemma WholeEventsConserve(events: seq<Bytes>, drained: seq<Bytes>, buf: Bytes)
    requires WholeEvents(events, drained, buf)
    ensures Flat(drained) + buf == Flat(events)
  {
    var cuts: seq<nat> :| CutAt(events, drained, buf, cuts);
    var n := |drained|;
    CutsJoin(events, drained, cuts, n);
    assert drained[..n] == drained;
    FlatJoin(events[..cuts[n]], events[cuts[n]..]);
    assert events[..cuts[n]] + events[cuts[n]..] == events;
  }

  // ---------------------------------------------------------------- what every interleaving keeps

  ghost predicate CoreOk(c: Core, flushBytes: int, stopped: bool) {
    && (c.timer <==> c.buf != [])
    && (flushBytes >= 1 ==> |c.buf| < flushBytes)
    && (flushBytes <= 0 ==> c.buf == [])
    && c.stopped == stopped && (stopped ==> c.buf == [])
  }

  ghost predicate WorldOk(w: World, flushBytes: int, ops: seq<Op>) {
    CoreOk(w.core, flushBytes, StopOp in ops) && WholeEvents(Accepted(ops), w.drained, w.core.buf)
  }

  lemma StepKeepsCore(w: World, flushBytes: int, op: Op, stopped: bool)
    requires CoreOk(w.core, flushBytes, stopped) && (op.WriteOp? ==> op.data != [])
    ensures CoreOk(Step(w, flushBytes, op).core, flushBytes, stopped || op.StopOp?)
  {
  }

  /** The events accepted so far, after one more step. */
  function Accept(events: seq<Bytes>, op: Op, stopped: bool): seq<Bytes> {
    if op.WriteOp? && !stopped then events + [op.data] else events
  }

  lemma StepKeepsEvents(w: World, flushBytes: int, op: Op, events: seq<Bytes>)
    requires WholeEvents(events, w.drained, w.core.buf)
    ensures var w' := Step(w, flushBytes, op); WholeEvents(Accept(events, op, w.core.stopped), w'.drained, w'.core.buf)
  {
    hide WholeEvents;
    if op.WriteOp? && !w.core.stopped {
      var grown := w.core.buf + op.data;
      AppendEvent(events, w.drained, w.core.buf, op.data);
      if grown != [] {
        CutBuffer(events + [op.data], w.drained, grown);
      }
    } else if w.core.buf != [] {
      CutBuffer(events, w.drained, w.core.buf);
    }
  }

  lemma StepKeeps(flushBytes: int, most: seq<Op>, op: Op)
    requires Legal(flushBytes, most + [op]) && WorldOk(Run(flushBytes, most), flushBytes, most)
    ensures WorldOk(Run(flushBytes, most + [op]), flushBytes, most + [op])
  {
    var ops := most + [op];
    assert ops[..|ops| - 1] == most && ops[|ops| - 1] == op;
    var w := Run(flushBytes, most);
    assert op.WriteOp? ==> op.data != [];
    assert Run(flushBytes, ops) == Step(w, flushBytes, op);
    assert Accepted(ops) == Accept(Accepted(most), op, w.core.stopped);
    assert StopOp in ops <==> StopOp in most || op.StopOp?;
    hide Run, Accepted, Legal, WholeEvents, CoreOk, Step, Accept;
    StepKeepsCore(w, flushBytes, op, StopOp in most);
    StepKeepsEvents(w, flushBytes, op, Accepted(most));
  }

  lemma {:induction false} RunKeeps(flushBytes: int, ops: seq<Op>)
    requires Legal(flushBytes, ops)
    ensures WorldOk(Run(flushBytes, ops), flushBytes, ops)
  {
    if ops == [] {
      assert CutAt([], [], [], [0]);
    } else {
      var most, op := ops[..|ops| - 1], ops[|ops| - 1];
      assert ops == most + [op];
      RunKeeps(flushBytes, most);
      hide WorldOk;
      StepKeeps(flushBytes, most, op);
    }
  }

  /** Whatever interleaves, chunks in drain order and then the buffer are the accepted writes, and no event is split. */
  lemma NothingLostOrSplit(flushBytes: int, ops: seq<Op>)
    requires Legal(flushBytes, ops)
    ensures var w := Run(flushBytes, ops);
      Flat(w.drained) + w.core.buf == Flat(Accepted(ops)) && WholeEvents(Accepted(ops), w.drained, w.core.buf)
  {
    RunKeeps(flushBytes, ops);
    var w := Run(flushBytes, ops);
    WholeEventsConserve(Accepted(ops), w.drained, w.core.buf);
  }

  /** Whenever the lock is free: the buffer is below the threshold, a timer is armed iff it holds something, and after Stop it is empty. */
  lemma BufferBounded(flushBytes: int, ops: seq<Op>)
    requires Legal(flushBytes, ops)
    ensures var c := Run(flushBytes, ops).core;
      && (flushBytes >= 1 ==> |c.buf| < flushBytes)
      && (c.timer <==> c.buf != [])
      && (StopOp in ops ==> c.buf == [] && !c.timer && c.stopped)
  {
    RunKeeps(flushBytes, ops);
  }

  function Returned(ops: seq<Op>): multiset<Bytes> {
    if ops == [] then multiset{}
    else
      var most, op := ops[..|ops| - 1], ops[|ops| - 1];
      if op.DoneOp? then Returned(most) + multiset{op.chunk} else Returned(most)
  }

  /** Every chunk is handed to the flush function once: it is being flushed or its call has returned. */
  lemma {:induction false} FlushedOnce(flushBytes: int, ops: seq<Op>)
    requires Legal(flushBytes, ops)
    ensures var w := Run(flushBytes, ops); multiset(w.drained) == w.flushing + Returned(ops)
  {
    if ops != [] {
      var most, op := ops[..|ops| - 1], ops[|ops| - 1];
      FlushedOnce(flushBytes, most);
      StepFlushes(Run(flushBytes, most), flushBytes, op);
      hide Step;
    }
  }

  /** What was drained was also handed out, and a returned call no longer runs. */
  ghost predicate HandedOut(w: World, w': World, op: Op) {
    if op.DoneOp? then w'.drained == w.drained && w.flushing == w'.flushing + multiset{op.chunk}
    else w' == w.(core := w'.core) || exists chunk: Bytes :: HandedChunk(w, w', chunk)
  }

  ghost predicate HandedChunk(w: World, w': World, chunk: Bytes) {
    w'.drained == w.drained + [chunk] && w'.flushing == w.flushing + multiset{chunk}
  }

  lemma StepFlushes(w: World, flushBytes: int, op: Op)
    requires op.DoneOp? ==> op.chunk in w.flushing
    ensures HandedOut(w, Step(w, flushBytes, op), op)
  {
    hide WriteRegion, DrainRegion, StopRegion, DoneRegion;
    var w' := Step(w, flushBytes, op);
    var r := match op
      case WriteOp(data) => WriteRegion(w.core, flushBytes, data).1
      case FlushOp => DrainRegion(w.core).1
      case StopOp => StopRegion(w.core).1
      case DoneOp(_, _) => None;
    if r.Some? { assert HandedChunk(w, w', r.value); }
  }

  // ---------------------------------------------------------------- flush errors

  /** The errors reported by flush calls, in the order in which the calls returned. */
  function Errors(ops: seq<Op>): seq<string> {
    if ops == [] then []
    else
      var most, op := ops[..|ops| - 1], ops[|ops| - 1];
      if op.DoneOp? && op.err.Some? then Errors(most) + [op.err.value] else Errors(most)
  }

  /** What the last returned flush call reported. */
  function LastReturned(ops: seq<Op>): Option<string> {
    if ops == [] then None
    else if ops[|ops| - 1].DoneOp? then ops[|ops| - 1].err
    else LastReturned(ops[..|ops| - 1])
  }

  lemma SuffixAppend<T>(s: seq<T>, n: nat, x: T)
    ensures n >= 1 ==> Suffix(Suffix(s, n) + [x], n) == Suffix(s + [x], n)
  {
  }

  lemma {:induction false} ErrorsRecorded(flushBytes: int, ops: seq<Op>)
    ensures var c := Run(flushBytes, ops).core;
      && c.errorCount == |Errors(ops)| && c.history == Suffix(Errors(ops), MAX_HISTORY) && c.lastErr == LastReturned(ops)
  {
    if ops != [] {
      var most, op := ops[..|ops| - 1], ops[|ops| - 1];
      ErrorsRecorded(flushBytes, most);
      if op.DoneOp? && op.err.Some? {
        SuffixAppend(Errors(most), MAX_HISTORY, op.err.value);
      }
    }
  }

  // ---------------------------------------------------------------- the object

  class ChunkerObject {
    var buf: Bytes
    var timer: bool
    var stopped: bool
    var lastErr: Option<string>
    var errorCount: nat
    var history: seq<string>
    const flushBytes: int

    ghost function Value(): Core
      reads this
    {
      Core(buf, timer, stopped, lastErr, errorCount, history)
    }

    constructor (flushBytes: int)
      ensures Value() == FRESH && this.flushBytes == flushBytes
    {
      buf, timer, stopped, lastErr, errorCount, history := [], false, false, None, 0, [];
      this.flushBytes := flushBytes;
    }

    /** Returns the chunk to flush once the lock is released. */
    method DrainLocked() returns (chunk: Option<Bytes>)
      modifies this
      ensures (Value(), chunk) == DrainRegion(old(Value()))
    {
      if |buf| == 0 {
        return None;
      }
      if timer {
        timer := false;
      }
      chunk := Some(buf);
      buf := [];
    }

    method Write(data: Bytes) returns (chunk: Option<Bytes>)
      modifies this
      ensures (Value(), chunk) == WriteRegion(old(Value()), flushBytes, data)
    {
      if stopped {
        return None;
      }
      buf := buf + data;
      if !timer {
        timer := true;
      }
      if |buf| >= flushBytes {
        chunk := DrainLocked();
      } else {
        chunk := None;
      }
    }

    method Stop() returns (chunk: Option<Bytes>)
      modifies this
      ensures (Value(), chunk) == StopRegion(old(Value()))
    {
      stopped := true;
      if timer {
        timer := false;
      }
      chunk := DrainLocked();
    }

    method FlushReturned(err: Option<string>)
      modifies this
      ensures Value() == DoneRegion(old(Value()), err)
    {
      if err.Some? {
        lastErr := err;
        errorCount := errorCount + 1;
        history := history + [err.value];
        if |history| > MAX_HISTORY {
          history := history[|history| - MAX_HISTORY..];
        }
        return;
      }
      lastErr := None;
    }
  }
}

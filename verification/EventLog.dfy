/**
  The per-run event log of pkg/state/memory_store.go: insertion with deduplication and retention,
  replay in pages, and compaction in place.
 */
module EventLog {
  import opened Common

  datatype Event = Event(task: string, run: string, seqNo: int, ts: int, data: string)

  /** Sequence numbers strictly increase. */
  ghost predicate Increasing(s: seq<Event>) {
    forall i, j :: 0 <= i < j < |s| ==> s[i].seqNo < s[j].seqNo
  }

  predicate HasSeq(s: seq<Event>, n: int) { exists i :: 0 <= i < |s| && s[i].seqNo == n }

  /** The events not older than the cutoff, in order. */
  function Recent(s: seq<Event>, cutoff: int): seq<Event> {
    if s == [] then []
    else
      var most, last := s[..|s| - 1], s[|s| - 1];
      if last.ts >= cutoff then Recent(most, cutoff) + [last] else Recent(most, cutoff)
  }

  /** Where sorting moves an event appended to a sorted list. */
  function Insert(s: seq<Event>, e: Event): seq<Event> {
    if s == [] || s[|s| - 1].seqNo <= e.seqNo then s + [e]
    else Insert(s[..|s| - 1], e) + [s[|s| - 1]]
  }

  /** PutEvent on the events of one run. The first write of a sequence number wins. */
  function Put(s: seq<Event>, e: Event, now: int, retention: int): seq<Event> {
    var stamped := if e.ts == 0 then e.(ts := now) else e;
    if HasSeq(s, e.seqNo) then s
    else
      var grown := Insert(s, stamped);
      if retention > 0 then Recent(grown, now - retention) else grown
  }

  // ---------------------------------------------------------------- order

  lemma {:induction false} RecentHas(s: seq<Event>, cutoff: int, e: Event)
    ensures e in Recent(s, cutoff) <==> e in s && e.ts >= cutoff
  {
    if s != [] {
      assert s == s[..|s| - 1] + [s[|s| - 1]];
      RecentHas(s[..|s| - 1], cutoff, e);
    }
  }

  lemma {:induction false} RecentIncreasing(s: seq<Event>, cutoff: int)
    requires Increasing(s)
    ensures Increasing(Recent(s, cutoff))
  {
    if s != [] {
      var most, last := s[..|s| - 1], s[|s| - 1];
      RecentIncreasing(most, cutoff);
      var r := Recent(most, cutoff);
      forall i | 0 <= i < |r| ensures r[i].seqNo < last.seqNo {
        RecentHas(most, cutoff, r[i]);
      }
    }
  }

  lemma {:induction false} InsertHas(s: seq<Event>, e: Event, x: Event)
    ensures x in Insert(s, e) <==> x in s || x == e
  {
    if s != [] && s[|s| - 1].seqNo > e.seqNo {
      var most, last := s[..|s| - 1], s[|s| - 1];
      InsertHas(most, e, x);
      assert Insert(s, e) == Insert(most, e) + [last];
      assert s == most + [last];
      hide Insert;
    }
  }

  lemma Append(s: seq<Event>, e: Event)
    requires Increasing(s) && forall x :: x in s ==> x.seqNo < e.seqNo
    ensures Increasing(s + [e])
  {
    var all := s + [e];
    forall i, j | 0 <= i < j < |all| ensures all[i].seqNo < all[j].seqNo {
      assert all[i] == s[i] && s[i] in s;
    }
  }

  lemma {:induction false} InsertOk(s: seq<Event>, e: Event)
    requires Increasing(s) && !HasSeq(s, e.seqNo)
    ensures Increasing(Insert(s, e))
  {
    if s != [] && s[|s| - 1].seqNo > e.seqNo {
      var most, last := s[..|s| - 1], s[|s| - 1];
      assert !HasSeq(most, e.seqNo);
      InsertOk(most, e);
      assert Insert(s, e) == Insert(most, e) + [last];
      hide Insert, HasSeq;
      forall x | x in Insert(most, e) ensures x.seqNo < last.seqNo {
        InsertHas(most, e, x);
      }
      Append(Insert(most, e), last);
    } else {
      assert Insert(s, e) == s + [e];
      hide Insert;
      forall x | x in s ensures x.seqNo < e.seqNo {
      }
      Append(s, e);
    }
  }

  /** The place found by walking back over larger sequence numbers. */
  lemma {:induction false} InsertAt(s: seq<Event>, e: Event, at: nat)
    requires at <= |s| && (at > 0 ==> s[at - 1].seqNo <= e.seqNo) && forall j :: at <= j < |s| ==> s[j].seqNo > e.seqNo
    ensures Insert(s, e) == s[..at] + [e] + s[at..]
  {
    if at < |s| {
      var n := |s| - 1;
      InsertAt(s[..n], e, at);
      assert Insert(s, e) == Insert(s[..n], e) + [s[n]];
      hide Insert;
      assert s[..n][..at] == s[..at] && s[..n][at..] + [s[n]] == s[at..];
    } else {
      assert s[..at] + [e] + s[at..] == s + [e];
    }
  }

  lemma LastIsLargest(a: seq<Event>, b: seq<Event>)
    requires Increasing(a) && Increasing(b) && a != [] && b != [] && (forall x :: x in a <==> x in b)
    ensures a[|a| - 1] == b[|b| - 1]
  {
    var x, y := a[|a| - 1], b[|b| - 1];
    assert x in a && y in b;
    var i :| 0 <= i < |b| && b[i] == x;
    var j :| 0 <= j < |a| && a[j] == y;
  }

  lemma WithoutLast(a: seq<Event>, y: Event)
    requires Increasing(a) && a != []
    ensures y in a[..|a| - 1] <==> y in a && y != a[|a| - 1]
  {
    var n := |a| - 1;
    if y in a && y != a[n] {
      var i :| 0 <= i < |a| && a[i] == y;
      assert a[..n][i] == y;
    }
  }

  /** An increasing list is determined by its elements, so sorting has one possible result. */
  lemma {:induction false} SortIsUnique(a: seq<Event>, b: seq<Event>)
    requires Increasing(a) && Increasing(b) && forall x :: x in a <==> x in b
    ensures a == b
    decreases |a|
  {
    assert b != [] ==> b[0] in b && b[0] in a;
    if a != [] {
      assert a[0] in a;
      LastIsLargest(a, b);
      var n, m := |a| - 1, |b| - 1;
      forall y ensures y in a[..n] <==> y in b[..m] {
        WithoutLast(a, y);
        WithoutLast(b, y);
      }
      SortIsUnique(a[..n], b[..m]);
      assert a == a[..n] + [a[n]] && b == b[..m] + [b[m]];
    }
  }

  /** Whatever order a sort of the appended list produces, it is this one. */
  lemma InsertIsSort(s: seq<Event>, e: Event, sorted: seq<Event>)
    requires Increasing(s) && !HasSeq(s, e.seqNo)
    requires Increasing(sorted) && multiset(sorted) == multiset(s + [e])
    ensures sorted == Insert(s, e)
  {
    InsertOk(s, e);
    forall x ensures x in sorted <==> x in Insert(s, e) {
      assert x in sorted <==> x in multiset(sorted);
      assert x in s + [e] <==> x in multiset(s + [e]);
      InsertHas(s, e, x);
    }
    SortIsUnique(sorted, Insert(s, e));
  }

  lemma PutKeepsOrder(s: seq<Event>, e: Event, now: int, retention: int)
    requires Increasing(s)
    ensures Increasing(Put(s, e, now, retention))
  {
    hide Insert, Recent, Increasing;
    var stamped := if e.ts == 0 then e.(ts := now) else e;
    if !HasSeq(s, e.seqNo) {
      InsertOk(s, stamped);
      RecentIncreasing(Insert(s, stamped), now - retention);
    }
  }

  /** A put adds at most its own event, drops only events older than the cutoff, and replaces none. */
  lemma PutChanges(s: seq<Event>, e: Event, now: int, retention: int, x: Event)
    ensures var stamped := if e.ts == 0 then e.(ts := now) else e;
      x in Put(s, e, now, retention) <==>
        if HasSeq(s, e.seqNo) then x in s
        else (x in s || x == stamped) && (retention > 0 ==> x.ts >= now - retention)
  {
    var stamped := if e.ts == 0 then e.(ts := now) else e;
    if !HasSeq(s, e.seqNo) {
      InsertHas(s, stamped, x);
      RecentHas(Insert(s, stamped), now - retention, x);
    }
  }

  // ---------------------------------------------------------------- whole runs

  datatype Op = PutOp(event: Event, now: int) | CompactOp(beforeTs: int)

  /** CompactEvents on the events of one run. */
  function Compact(s: seq<Event>, beforeTs: int): seq<Event> {
    if beforeTs <= 0 then s else Recent(s, beforeTs)
  }

  function Apply(s: seq<Event>, op: Op, retention: int): seq<Event> {
    match op
    case PutOp(e, now) => Put(s, e, now, retention)
    case CompactOp(before) => Compact(s, before)
  }

  function Run(ops: seq<Op>, retention: int): seq<Event> {
    if ops == [] then [] else Apply(Run(ops[..|ops| - 1], retention), ops[|ops| - 1], retention)
  }

  lemma {:induction false} AlwaysIncreasing(ops: seq<Op>, retention: int)
    ensures Increasing(Run(ops, retention))
  {
    if ops != [] {
      var s, op := Run(ops[..|ops| - 1], retention), ops[|ops| - 1];
      AlwaysIncreasing(ops[..|ops| - 1], retention);
      match op
      case PutOp(e, now) => PutKeepsOrder(s, e, now, retention);
      case CompactOp(before) => RecentIncreasing(s, before);
    }
  }

  /** The i-th operation is the first to put this sequence number. */
  ghost predicate FirstPut(ops: seq<Op>, i: nat) {
    i < |ops| && ops[i].PutOp? && forall j :: 0 <= j < i && ops[j].PutOp? ==> ops[j].event.seqNo != ops[i].event.seqNo
  }

  function Stamped(op: Op): Event
    requires op.PutOp?
  {
    if op.event.ts == 0 then op.event.(ts := op.now) else op.event
  }

  /** Nothing is dropped: no retention and no compaction. */
  ghost predicate KeepsAll(ops: seq<Op>, retention: int) {
    retention <= 0 && forall i :: 0 <= i < |ops| ==> ops[i].PutOp? || ops[i].beforeTs <= 0
  }

  ghost predicate WrittenFirst(ops: seq<Op>, x: Event) {
    exists i: nat :: FirstPut(ops, i) && Stamped(ops[i]) == x
  }

  lemma FirstPutPrefix(ops: seq<Op>, n: nat, i: nat)
    requires i < n <= |ops|
    ensures FirstPut(ops[..n], i) <==> FirstPut(ops, i)
  {
    assert forall j :: 0 <= j <= i ==> ops[..n][j] == ops[j];
  }

  lemma WrittenFirstStep(ops: seq<Op>, x: Event)
    requires ops != []
    ensures var n := |ops| - 1;
      WrittenFirst(ops, x) <==> WrittenFirst(ops[..n], x) || (FirstPut(ops, n) && Stamped(ops[n]) == x)
  {
    var n := |ops| - 1;
    if WrittenFirst(ops, x) {
      var i: nat :| FirstPut(ops, i) && Stamped(ops[i]) == x;
      if i < n {
        FirstPutPrefix(ops, n, i);
        hide FirstPut;
        assert FirstPut(ops[..n], i) && Stamped(ops[..n][i]) == x;
      }
    }
    if WrittenFirst(ops[..n], x) {
      var i: nat :| FirstPut(ops[..n], i) && Stamped(ops[..n][i]) == x;
      FirstPutPrefix(ops, n, i);
    }
  }

  /** Without retention and compaction the log holds exactly the first write of every sequence number. */
  lemma {:induction false} LogIsFirstWrites(ops: seq<Op>, retention: int, x: Event)
    requires KeepsAll(ops, retention)
    ensures x in Run(ops, retention) <==> WrittenFirst(ops, x)
  {
    if ops != [] {
      var n := |ops| - 1;
      var most, op := ops[..n], ops[n];
      LogIsFirstWrites(most, retention, x);
      WrittenFirstStep(ops, x);
      if op.PutOp? {
        AlwaysIncreasing(most, retention);
        PutChanges(Run(most, retention), op.event, op.now, retention, x);
        NewSeqIffFirst(most, op, retention);
        assert forall j :: 0 <= j < n ==> most[j] == ops[j];
        hide WrittenFirst, Put, HasSeq, Increasing;
      } else {
        hide WrittenFirst;
      }
    }
  }

  lemma {:induction false} NewSeqIffFirst(most: seq<Op>, op: Op, retention: int)
    requires KeepsAll(most, retention) && op.PutOp?
    ensures HasSeq(Run(most, retention), op.event.seqNo) <==>
      exists j :: 0 <= j < |most| && most[j].PutOp? && most[j].event.seqNo == op.event.seqNo
  {
    if most != [] {
      var n := |most| - 1;
      var before, last := most[..n], most[n];
      NewSeqIffFirst(before, op, retention);
      AlwaysIncreasing(before, retention);
      AlwaysIncreasing(most, retention);
      var s, s' := Run(before, retention), Run(most, retention);
      if last.PutOp? {
        forall x ensures x in s' <==> if HasSeq(s, last.event.seqNo) then x in s else x in s || x == Stamped(last) {
          PutChanges(s, last.event, last.now, retention, x);
        }
        if HasSeq(s, op.event.seqNo) {
          var i :| 0 <= i < |s| && s[i].seqNo == op.event.seqNo;
          assert s[i] in s';
        }
        if !HasSeq(s, last.event.seqNo) {
          assert Stamped(last) in s';
        }
        if HasSeq(s', op.event.seqNo) {
          var i :| 0 <= i < |s'| && s'[i].seqNo == op.event.seqNo;
          assert s'[i] in s';
        }
      }
    }
  }

  // ---------------------------------------------------------------- replay

  const DEFAULT_LIMIT := 200

  predicate Wanted(e: Event, fromSeq: int, fromTs: int) {
    !(fromSeq > 0 && e.seqNo <= fromSeq) && !(fromTs > 0 && e.ts < fromTs)
  }

  /** The events a replay is about, before the limit. */
  function Matching(s: seq<Event>, fromSeq: int, fromTs: int): seq<Event> {
    if s == [] then []
    else
      var rest := Matching(s[1..], fromSeq, fromTs);
      if Wanted(s[0], fromSeq, fromTs) then [s[0]] + rest else rest
  }

  function Cap(limit: int): (n: nat)
    ensures n >= 1
  {
    if limit <= 0 then DEFAULT_LIMIT else limit
  }

  function Page(s: seq<Event>, fromSeq: int, fromTs: int, limit: int): seq<Event> {
    var all := Matching(s, fromSeq, fromTs);
    if |all| > Cap(limit) then all[..Cap(limit)] else all
  }

  lemma {:induction false} MatchingIs(s: seq<Event>, fromSeq: int, fromTs: int)
    requires Increasing(s)
    ensures Increasing(Matching(s, fromSeq, fromTs))
    ensures forall e :: e in Matching(s, fromSeq, fromTs) <==> e in s && Wanted(e, fromSeq, fromTs)
  {
    if s != [] {
      MatchingIs(s[1..], fromSeq, fromTs);
      var rest := Matching(s[1..], fromSeq, fromTs);
      assert s == [s[0]] + s[1..];
      forall i | 0 <= i < |rest| ensures s[0].seqNo < rest[i].seqNo {
        assert rest[i] in s[1..];
      }
    }
  }

  /** Asking again from the last event of a prefix of the matches gives the rest of them. */
  lemma MatchingFrom(s: seq<Event>, fromSeq: int, fromTs: int, k: nat)
    requires Increasing(s) && k < |Matching(s, fromSeq, fromTs)| && Matching(s, fromSeq, fromTs)[k].seqNo > 0
    ensures var all := Matching(s, fromSeq, fromTs); Matching(s, all[k].seqNo, fromTs) == all[k + 1..]
  {
    var all := Matching(s, fromSeq, fromTs);
    var n := all[k].seqNo;
    var more := Matching(s, n, fromTs);
    MatchingIs(s, fromSeq, fromTs);
    MatchingIs(s, n, fromTs);
    forall e ensures e in more <==> e in all[k + 1..] {
      AfterIndex(all, k, e);
      assert all[k] in all;
    }
    SortIsUnique(more, all[k + 1..]);
  }

  lemma AfterIndex(all: seq<Event>, k: nat, e: Event)
    requires Increasing(all) && k < |all|
    ensures e in all[k + 1..] <==> e in all && e.seqNo > all[k].seqNo
  {
    if e in all {
      var i :| 0 <= i < |all| && all[i] == e;
      if i > k {
        assert all[k + 1..][i - k - 1] == e;
      }
    }
  }

  /** The page is empty or ends with a positive sequence number. */
  predicate Advances(s: seq<Event>, fromSeq: int, fromTs: int, limit: int) {
    var page := Page(s, fromSeq, fromTs, limit);
    page == [] || page[|page| - 1].seqNo > 0
  }

  /** Once a positive number was seen, every later page advances too. */
  lemma AdvancesOn(s: seq<Event>, fromSeq: int, fromTs: int, limit: int)
    requires Increasing(s) && fromSeq > 0
    ensures Advances(s, fromSeq, fromTs, limit)
  {
    hide Matching;
    MatchingIs(s, fromSeq, fromTs);
    var page := Page(s, fromSeq, fromTs, limit);
    if page != [] {
      assert page[|page| - 1] in Matching(s, fromSeq, fromTs);
    }
  }

  lemma PageThenRest(s: seq<Event>, fromSeq: int, fromTs: int, limit: int)
    requires Increasing(s) && Advances(s, fromSeq, fromTs, limit) && Page(s, fromSeq, fromTs, limit) != []
    ensures var all, page := Matching(s, fromSeq, fromTs), Page(s, fromSeq, fromTs, limit);
      var rest := Matching(s, page[|page| - 1].seqNo, fromTs);
      all == page + rest && |rest| < |all|
  {
    hide Matching;
    var all, page := Matching(s, fromSeq, fromTs), Page(s, fromSeq, fromTs, limit);
    var k := |page| - 1;
    assert page == all[..k + 1] && page[k] == all[k];
    MatchingFrom(s, fromSeq, fromTs, k);
  }

  /**
    All pages from fromSeq on: each next page is asked for by the last sequence number seen. If the
    first page advances, they are together exactly the matching events, each once and in order.
   */
  ghost function Pages(s: seq<Event>, fromSeq: int, fromTs: int, limit: int): (r: seq<Event>)
    requires Increasing(s) && Advances(s, fromSeq, fromTs, limit)
    ensures r == Matching(s, fromSeq, fromTs)
    decreases |Matching(s, fromSeq, fromTs)|
  {
    var page := Page(s, fromSeq, fromTs, limit);
    if page == [] then []
    else
      PageThenRest(s, fromSeq, fromTs, limit);
      AdvancesOn(s, page[|page| - 1].seqNo, fromTs, limit);
      page + Pages(s, page[|page| - 1].seqNo, fromTs, limit)
  }

  /** A page asked for by the last sequence number of the first page is that page again iff the number is not positive. */
  lemma PageRepeatsIff(s: seq<Event>, fromTs: int, limit: int)
    requires Increasing(s) && Page(s, 0, fromTs, limit) != []
    ensures var page := Page(s, 0, fromTs, limit); var last := page[|page| - 1].seqNo;
      Page(s, last, fromTs, limit) == page <==> last <= 0
  {
    var page := Page(s, 0, fromTs, limit);
    var last := page[|page| - 1].seqNo;
    if last > 0 {
      MatchingIs(s, last, fromTs);
      var next := Page(s, last, fromTs, limit);
      assert forall e :: e in next ==> e in Matching(s, last, fromTs);
      assert page[|page| - 1] in page;
    } else {
      SameMatching(s, last, fromTs);
    }
  }

  /** A log with such a page: its one event is numbered 0, and every page is that event again. */
  lemma PagingRepeats(e: Event, limit: int)
    requires e.seqNo == 0
    ensures Increasing([e]) && !Advances([e], 0, 0, limit)
    ensures Page([e], 0, 0, limit) == [e] && Page([e], e.seqNo, 0, limit) == [e]
  {
    assert [e][1..] == [] && Matching([e], 0, 0) == [e];
  }

  lemma {:induction false} SameMatching(s: seq<Event>, fromSeq: int, fromTs: int)
    requires fromSeq <= 0
    ensures Matching(s, fromSeq, fromTs) == Matching(s, 0, fromTs)
  {
    if s != [] {
      SameMatching(s[1..], fromSeq, fromTs);
    }
  }

  /** Compaction does not change replays that start no earlier than its cutoff. */
  lemma CompactKeepsReplay(s: seq<Event>, beforeTs: int, fromSeq: int, fromTs: int, limit: int)
    requires Increasing(s) && fromTs >= beforeTs
    ensures Page(Compact(s, beforeTs), fromSeq, fromTs, limit) == Page(s, fromSeq, fromTs, limit)
  {
    if beforeTs > 0 {
      var kept := Recent(s, beforeTs);
      RecentIncreasing(s, beforeTs);
      MatchingIs(s, fromSeq, fromTs);
      MatchingIs(kept, fromSeq, fromTs);
      forall e ensures e in Matching(kept, fromSeq, fromTs) <==> e in Matching(s, fromSeq, fromTs) {
        RecentHas(s, beforeTs, e);
      }
      SortIsUnique(Matching(kept, fromSeq, fromTs), Matching(s, fromSeq, fromTs));
    }
  }

  // ---------------------------------------------------------------- the object

  lemma RecentStep(s: seq<Event>, i: nat, cutoff: int)
    requires i < |s|
    ensures Recent(s[..i + 1], cutoff) == if s[i].ts >= cutoff then Recent(s[..i], cutoff) + [s[i]] else Recent(s[..i], cutoff)
  {
    assert s[..i + 1][..i] == s[..i];
  }

  /** The filter loop shared by retention and compaction: survivors move to the front of the same buffer. */
  method FilterInPlace(a: array<Event>, n: nat, cutoff: int) returns (kept: nat)
    requires n <= a.Length
    modifies a
    ensures kept <= n && a[..kept] == Recent(old(a[..n]), cutoff)
  {
    kept := 0;
    ghost var was := a[..n];
    for i := 0 to n
      invariant kept <= i && a[..kept] == Recent(was[..i], cutoff)
      invariant forall j :: i <= j < n ==> a[j] == was[j]
    {
      RecentStep(was, i, cutoff);
      if a[i].ts >= cutoff {
        a[kept] := a[i];
        assert a[..kept + 1] == a[..kept] + [was[i]];
        kept := kept + 1;
      }
    }
    assert was[..n] == was;
  }

  /** The events of one run: a buffer of which the first len entries are in use. */
  class RunEvents {
    var buf: array<Event>
    var len: nat
    const retention: int

    ghost predicate Valid()
      reads this, buf
    {
      len <= buf.Length && Increasing(buf[..len])
    }

    ghost function Contents(): seq<Event>
      reads this, buf
      requires len <= buf.Length
    {
      buf[..len]
    }

    constructor (retention: int)
      ensures Valid() && Contents() == [] && fresh(buf) && this.retention == retention
    {
      buf := new Event[0];
      len := 0;
      this.retention := retention;
    }

    method KeepRecent(cutoff: int) returns (removed: nat)
      requires len <= buf.Length
      modifies this`len, buf
      ensures len <= buf.Length && Contents() == Recent(old(Contents()), cutoff)
      ensures removed == old(len) - len
    {
      var kept := FilterInPlace(buf, len, cutoff);
      removed := len - kept;
      len := kept;
    }

    method Contains(n: int) returns (found: bool)
      requires len <= buf.Length
      ensures found <==> HasSeq(Contents(), n)
    {
      for i := 0 to len
        invariant forall j :: 0 <= j < i ==> buf[j].seqNo != n
      {
        if buf[i].seqNo == n {
          assert buf[..len][i].seqNo == n;
          return true;
        }
      }
      return false;
    }

    method PutEvent(e: Event, now: int) returns (err: Error)
      requires Valid()
      modifies this, buf
      ensures err == if e.task == "" || e.run == "" then Conflict else Ok
      ensures Valid() && (buf == old(buf) || fresh(buf))
      ensures Contents() == if err == Ok then Put(old(Contents()), e, now, retention) else old(Contents())
    {
      if e.task == "" || e.run == "" {
        return Conflict;
      }
      ghost var was := Contents();
      PutKeepsOrder(was, e, now, retention);
      hide Insert, Recent, HasSeq, Increasing;
      var known := Contains(e.seqNo);
      if known {
        return Ok;
      }
      InsertInOrder(if e.ts == 0 then e.(ts := now) else e);
      if retention > 0 {
        var _ := KeepRecent(now - retention);
      }
      assert Contents() == Put(was, e, now, retention);
      return Ok;
    }

    /** Append and sort. */
    method InsertInOrder(e: Event)
      requires len <= buf.Length
      modifies this
      ensures len <= buf.Length && fresh(buf) && Contents() == Insert(old(Contents()), e)
    {
      hide Insert;
      var s := buf[..len];
      var at := |s|;
      while at > 0 && s[at - 1].seqNo > e.seqNo
        invariant 0 <= at <= |s| && forall j :: at <= j < |s| ==> s[j].seqNo > e.seqNo
      {
        at := at - 1;
      }
      InsertAt(s, e, at);
      var grown := s[..at] + [e] + s[at..];
      buf := new Event[|grown|](i requires 0 <= i < |grown| => grown[i]);
      len := |grown|;
      assert buf[..len] == grown;
    }

    method ReplayEvents(fromSeq: int, fromTs: int, limit: int) returns (out: seq<Event>)
      requires Valid()
      ensures out == Page(Contents(), fromSeq, fromTs, limit)
    {
      var cap := Cap(limit);
      out := [];
      var i := 0;
      ghost var s := Contents();
      while i < len
        invariant 0 <= i <= len && |out| < cap
        invariant Matching(s, fromSeq, fromTs) == out + Matching(s[i..], fromSeq, fromTs)
      {
        assert s[i..][1..] == s[i + 1..];
        if Wanted(buf[i], fromSeq, fromTs) {
          out := out + [buf[i]];
          if |out| >= cap {
            return;
          }
        }
        i := i + 1;
      }
    }

    /** Compaction drops exactly the older events, and replays that start at or after the cutoff stay the same. */
    method CompactEvents(beforeTs: int) returns (removed: nat)
      requires Valid()
      modifies this`len, buf
      ensures Valid() && Contents() == Compact(old(Contents()), beforeTs) && removed == old(len) - len
    {
      if beforeTs <= 0 || len == 0 {
        return 0;
      }
      RecentIncreasing(Contents(), beforeTs);
      removed := KeepRecent(beforeTs);
    }
  }
}

/** The events Execute pushes (pkg/engine/engine.go), numbered as they are persisted. */
module EngineEvents {
  datatype EventKind = StepStart | TokenChunk | ToolCalled | ToolResult | StepEnd | CompleteEvent | ErrorEvent

  datatype Pushed = Pushed(seqNo: nat, kind: EventKind)

  datatype Events = Events(counter: nat, log: seq<Pushed>)

  predicate Closing(kind: EventKind) { kind.CompleteEvent? || kind.ErrorEvent? }

  /** pushEvent, up to the persisted record. */
  function Push(ev: Events, pusher: bool, kind: EventKind): Events {
    if !pusher then ev else Events(ev.counter + 1, ev.log + [Pushed(ev.counter + 1, kind)])
  }

  function PushMany(ev: Events, pusher: bool, kind: EventKind, n: nat): Events {
    if n == 0 then ev else Push(PushMany(ev, pusher, kind, n - 1), pusher, kind)
  }

  /** Numbered 1..n without gaps; nothing without a pusher; a completion or error event only at the end, if at all. */
  ghost predicate Numbered(ev: Events, pusher: bool) {
    && ev.counter == |ev.log| && (!pusher ==> ev.log == [])
    && (forall i :: 0 <= i < |ev.log| ==> ev.log[i].seqNo == i + 1)
    && (forall i :: 0 <= i < |ev.log| - 1 ==> !Closing(ev.log[i].kind))
  }

  ghost predicate Open(ev: Events, pusher: bool) {
    Numbered(ev, pusher) && forall i :: 0 <= i < |ev.log| ==> !Closing(ev.log[i].kind)
  }

  lemma PushKeeps(ev: Events, pusher: bool, kind: EventKind)
    requires Open(ev, pusher)
    ensures Numbered(Push(ev, pusher, kind), pusher)
    ensures !Closing(kind) ==> Open(Push(ev, pusher, kind), pusher)
  {
  }

  /** The last event is the one just pushed. */
  lemma ClosingPush(ev: Events, pusher: bool, kind: EventKind)
    requires Open(ev, pusher)
    ensures var after := Push(ev, pusher, kind);
      Numbered(after, pusher) && (pusher ==> after.log != [] && after.log[|after.log| - 1].kind == kind)
  {
  }

  lemma {:induction false} PushManyKeeps(ev: Events, pusher: bool, kind: EventKind, n: nat)
    requires Open(ev, pusher) && !Closing(kind)
    ensures Open(PushMany(ev, pusher, kind, n), pusher)
  {
    if n > 0 {
      PushManyKeeps(ev, pusher, kind, n - 1);
      PushKeeps(PushMany(ev, pusher, kind, n - 1), pusher, kind);
    }
  }

  /** Several events, one after the other. */
  function PushAll(ev: Events, pusher: bool, kinds: seq<EventKind>): Events {
    if kinds == [] then ev else Push(PushAll(ev, pusher, kinds[..|kinds| - 1]), pusher, kinds[|kinds| - 1])
  }

  lemma {:induction false} PushJoin(ev: Events, pusher: bool, a: seq<EventKind>, b: seq<EventKind>)
    ensures PushAll(PushAll(ev, pusher, a), pusher, b) == PushAll(ev, pusher, a + b)
    decreases |b|
  {
    if b == [] {
      assert a + b == a;
    } else {
      var n := |b| - 1;
      PushJoin(ev, pusher, a, b[..n]);
      assert (a + b)[..|a| + n] == a + b[..n];
    }
  }

  lemma PushOne(ev: Events, pusher: bool, kind: EventKind)
    ensures PushAll(ev, pusher, [kind]) == Push(ev, pusher, kind)
  {
    assert [kind][..0] == [];
  }

  function Repeat(kind: EventKind, n: nat): seq<EventKind> { if n == 0 then [] else Repeat(kind, n - 1) + [kind] }

  lemma {:induction false} PushManyIs(ev: Events, pusher: bool, kind: EventKind, n: nat)
    ensures PushMany(ev, pusher, kind, n) == PushAll(ev, pusher, Repeat(kind, n))
  {
    if n > 0 {
      PushManyIs(ev, pusher, kind, n - 1);
      assert Repeat(kind, n)[..|Repeat(kind, n)| - 1] == Repeat(kind, n - 1);
    }
  }

  /** With a pusher the log holds exactly these kinds, numbered from 1; without one it stays empty. */
  lemma {:induction false} PushedKinds(pusher: bool, kinds: seq<EventKind>)
    ensures var log := PushAll(Events(0, []), pusher, kinds).log;
      && (!pusher ==> log == [])
      && (pusher ==> |log| == |kinds| && forall i :: 0 <= i < |log| ==> log[i] == Pushed(i + 1, kinds[i]))
    ensures PushAll(Events(0, []), pusher, kinds).counter == if pusher then |kinds| else 0
    decreases |kinds|
  {
    if kinds != [] {
      PushedKinds(pusher, kinds[..|kinds| - 1]);
    }
  }
}

/**
  Where the messages are: in every reachable state of the dispatch system the channel, the
  ingress loops, the FIFOs and the two key sets hold exactly the submissions whose phase says so,
  and no two submissions inside the queue share a key.
 */
module DispatchPlaces {
  import opened TenantPolicy
  import opened QueueCore
  import opened Dispatch

  function Key(live: map<nat, Live>, id: nat): string
    requires id in live
  {
    MessageKey(live[id].msg)
  }

  predicate Queueing(p: Phase) {
    p.Admitting? || p.Refusing? || p.Sending? || p.Buffered? || p.Carried? || p.Waiting?
  }

  function QueueKeys(live: map<nat, Live>): set<string> {
    set id | id in live && Queueing(live[id].phase) :: Key(live, id)
  }

  function FlightKeys(live: map<nat, Live>): set<string> {
    set id | id in live && !Queueing(live[id].phase) :: Key(live, id)
  }

  /** No two submissions inside the queue have the same key. */
  ghost predicate OneCopy(live: map<nat, Live>) {
    forall i, j :: i in live && j in live && i != j ==> Key(live, i) != Key(live, j)
  }

  ghost predicate Named(live: map<nat, Live>) {
    forall id :: id in live ==> live[id].msg.ticket == id && live[id].msg.tenant != ""
  }

  ghost predicate SeqHolds(ms: seq<Msg>, live: map<nat, Live>, p: Phase) {
    && (forall i :: 0 <= i < |ms| ==> ms[i].ticket in live && live[ms[i].ticket].msg == ms[i] && live[ms[i].ticket].phase == p)
    && (forall i, j :: 0 <= i < j < |ms| ==> ms[i].ticket != ms[j].ticket)
  }

  /** The list holds exactly the submissions in this phase, once each. */
  ghost predicate ListOk(ms: seq<Msg>, live: map<nat, Live>, p: Phase) {
    && SeqHolds(ms, live, p)
    && (forall id :: InPhase(live, id, p) ==> live[id].msg in ms)
  }

  /** The FIFOs hold exactly the waiting submissions, once each, each in its tenant's FIFO. */
  ghost predicate FifosOk(pending: map<string, seq<Msg>>, live: map<nat, Live>) {
    && (forall t :: t in pending ==> SeqHolds(pending[t], live, Waiting))
    && (forall id :: InPhase(live, id, Waiting) ==>
         live[id].msg.tenant in pending && live[id].msg in pending[live[id].msg.tenant])
  }

  /** The key sets hold exactly the keys of the submissions inside the queue. */
  ghost predicate KeysOk(q: Core, live: map<nat, Live>) {
    && OneCopy(live)
    && q.inQueue == QueueKeys(live)
    && q.inFlight == FlightKeys(live)
  }

  ghost predicate Places(q: Core, live: map<nat, Live>, hands: seq<Msg>) {
    && RingOk(q) && Named(live) && KeysOk(q, live)
    && ListOk(q.channel, live, Buffered) && ListOk(hands, live, Carried) && FifosOk(q.pending, live)
  }

  // ---------------------------------------------------------------- one entry changes

  lemma KeysAfterEnter(live: map<nat, Live>, id: nat, e: Live)
    requires id !in live && OneCopy(live) && MessageKey(e.msg) !in QueueKeys(live) + FlightKeys(live)
    ensures OneCopy(live[id := e])
    ensures QueueKeys(live[id := e]) == QueueKeys(live) + if Queueing(e.phase) then {MessageKey(e.msg)} else {}
    ensures FlightKeys(live[id := e]) == FlightKeys(live) + if Queueing(e.phase) then {} else {MessageKey(e.msg)}
  {
    hide MessageKey;
    var after := live[id := e];
    forall j | j in live ensures Key(live, j) != MessageKey(e.msg) {
      assert Key(live, j) in QueueKeys(live) + FlightKeys(live);
    }
    assert forall j :: j in after ==> j == id || (j in live && after[j] == live[j]);
    QueueKeysAfterEnter(live, id, e);
    FlightKeysAfterEnter(live, id, e);
  }

  lemma QueueKeysAfterEnter(live: map<nat, Live>, id: nat, e: Live)
    requires id !in live
    ensures QueueKeys(live[id := e]) == QueueKeys(live) + if Queueing(e.phase) then {MessageKey(e.msg)} else {}
  {
    hide MessageKey;
    var after := live[id := e];
    assert Key(after, id) == MessageKey(e.msg);
    forall k | k in QueueKeys(live) ensures k in QueueKeys(after) {
      var j :| j in live && Queueing(live[j].phase) && Key(live, j) == k;
      assert j in after && Key(after, j) == k;
    }
  }

  lemma FlightKeysAfterEnter(live: map<nat, Live>, id: nat, e: Live)
    requires id !in live
    ensures FlightKeys(live[id := e]) == FlightKeys(live) + if Queueing(e.phase) then {} else {MessageKey(e.msg)}
  {
    hide MessageKey;
    var after := live[id := e];
    assert Key(after, id) == MessageKey(e.msg);
    forall k | k in FlightKeys(live) ensures k in FlightKeys(after) {
      var j :| j in live && !Queueing(live[j].phase) && Key(live, j) == k;
      assert j in after && Key(after, j) == k;
    }
  }

  lemma KeysAfterLeave(live: map<nat, Live>, id: nat)
    requires id in live && OneCopy(live)
    ensures OneCopy(live - {id})
    ensures QueueKeys(live - {id}) == QueueKeys(live) - {Key(live, id)}
    ensures FlightKeys(live - {id}) == FlightKeys(live) - {Key(live, id)}
    ensures Key(live, id) in if Queueing(live[id].phase) then QueueKeys(live) - FlightKeys(live) else FlightKeys(live) - QueueKeys(live)
  {
    var after := live - {id};
    forall k | k in QueueKeys(live) && k != Key(live, id) ensures k in QueueKeys(after) {
      var j :| j in live && Queueing(live[j].phase) && Key(live, j) == k;
      assert j in after && Key(after, j) == k;
    }
    forall k | k in FlightKeys(live) && k != Key(live, id) ensures k in FlightKeys(after) {
      var j :| j in live && !Queueing(live[j].phase) && Key(live, j) == k;
      assert j in after && Key(after, j) == k;
    }
  }

  lemma KeysAfterMove(live: map<nat, Live>, id: nat, p: Phase)
    requires id in live && OneCopy(live)
    ensures var k := Key(live, id);
            && OneCopy(Move(live, id, p))
            && QueueKeys(Move(live, id, p)) == QueueKeys(live) - {k} + (if Queueing(p) then {k} else {})
            && FlightKeys(Move(live, id, p)) == FlightKeys(live) - {k} + (if Queueing(p) then {} else {k})
            && k in (if Queueing(live[id].phase) then QueueKeys(live) - FlightKeys(live) else FlightKeys(live) - QueueKeys(live))
  {
    hide QueueKeys, FlightKeys, OneCopy, MessageKey;
    KeysAfterLeave(live, id);
    KeysAfterEnter(live - {id}, id, live[id].(phase := p));
    assert (live - {id})[id := live[id].(phase := p)] == Move(live, id, p);
  }

  /** The two maps differ at most at one entry. */
  ghost predicate AgreeOff(live: map<nat, Live>, live': map<nat, Live>, id: nat) {
    forall j :: j != id ==> (j in live <==> j in live') && (j in live ==> live[j] == live'[j])
  }

  lemma HoldsFrame(ms: seq<Msg>, live: map<nat, Live>, live': map<nat, Live>, id: nat, p: Phase)
    requires SeqHolds(ms, live, p) && AgreeOff(live, live', id) && (id in live ==> live[id].phase != p)
    ensures SeqHolds(ms, live', p)
  {
    forall i | 0 <= i < |ms|
      ensures ms[i].ticket in live' && live'[ms[i].ticket].msg == ms[i] && live'[ms[i].ticket].phase == p
    {
      assert ms[i].ticket in live && ms[i].ticket != id;
    }
  }

  /** The list does not notice an entry that is not in its phase before or after. */
  lemma ListFrame(ms: seq<Msg>, live: map<nat, Live>, live': map<nat, Live>, id: nat, p: Phase)
    requires ListOk(ms, live, p) && AgreeOff(live, live', id)
    requires !InPhase(live, id, p) && !InPhase(live', id, p)
    ensures ListOk(ms, live', p)
  {
    hide SeqHolds;
    HoldsFrame(ms, live, live', id, p);
    forall j | InPhase(live', j, p) ensures live'[j].msg in ms { assert InPhase(live, j, p); }
  }

  lemma FifosFrame(pending: map<string, seq<Msg>>, live: map<nat, Live>, live': map<nat, Live>, id: nat)
    requires FifosOk(pending, live) && AgreeOff(live, live', id)
    requires !InPhase(live, id, Waiting) && !InPhase(live', id, Waiting)
    ensures FifosOk(pending, live')
  {
    hide SeqHolds;
    forall t | t in pending ensures SeqHolds(pending[t], live', Waiting) {
      HoldsFrame(pending[t], live, live', id, Waiting);
    }
    forall j | InPhase(live', j, Waiting)
      ensures live'[j].msg.tenant in pending && live'[j].msg in pending[live'[j].msg.tenant]
    {
      assert InPhase(live, j, Waiting);
    }
  }

  /** A change that concerns neither the channel, nor the ingress loops, nor the FIFOs. */
  predicate Aside(live: map<nat, Live>, id: nat) {
    !InPhase(live, id, Buffered) && !InPhase(live, id, Carried) && !InPhase(live, id, Waiting)
  }

  lemma PlacesFrame(q: Core, q': Core, live: map<nat, Live>, live': map<nat, Live>, hands: seq<Msg>, id: nat)
    requires Places(q, live, hands) && AgreeOff(live, live', id) && Aside(live, id) && Aside(live', id)
    requires q'.ring == q.ring && q'.cursor == q.cursor && q'.pending == q.pending && q'.channel == q.channel
    requires Named(live') && KeysOk(q', live')
    ensures Places(q', live', hands)
  {
    hide KeysOk, Named, ListOk, FifosOk, RingOk, AgreeOff;
    RingFrame(q, q');
    ListFrame(q.channel, live, live', id, Buffered);
    ListFrame(hands, live, live', id, Carried);
    FifosFrame(q.pending, live, live', id);
  }

  // ---------------------------------------------------------------- every step keeps the places

  lemma ClaimKeepsPlaces(q: Core, live: map<nat, Live>, hands: seq<Msg>, m: Msg, now: int, window: int)
    requires Places(q, live, hands) && m.ticket !in live && m.tenant != ""
    ensures var dup := Duplicate(q, MessageKey(m), now, window);
            Places(Claim(q, MessageKey(m), now, window), if dup then live else Enter(live, m, now), hands)
  {
    hide QueueKeys, FlightKeys, OneCopy, MessageKey, PruneRecent, RingOk, ListOk, FifosOk;
    if Duplicate(q, MessageKey(m), now, window) {
      PlacesFrame(q, Claim(q, MessageKey(m), now, window), live, live, hands, m.ticket);
    } else {
      KeysAfterEnter(live, m.ticket, Live(m, Admitting, now));
      PlacesFrame(q, Claim(q, MessageKey(m), now, window), live, Enter(live, m, now), hands, m.ticket);
    }
  }

  /** A submission leaves from a phase in which only inQueue knows it. */
  lemma UnclaimKeepsPlaces(q: Core, live: map<nat, Live>, hands: seq<Msg>, id: nat)
    requires Places(q, live, hands) && (InPhase(live, id, Refusing) || InPhase(live, id, Sending))
    ensures Places(Unclaim(q, MessageKey(live[id].msg)), Exit(live, id), hands)
  {
    hide QueueKeys, FlightKeys, OneCopy, MessageKey, RingOk, ListOk, FifosOk;
    KeysAfterLeave(live, id);
    PlacesFrame(q, Unclaim(q, MessageKey(live[id].msg)), live, Exit(live, id), hands, id);
  }

  /** A change of phase that concerns neither the key sets nor the places. */
  lemma MoveKeepsPlaces(q: Core, live: map<nat, Live>, hands: seq<Msg>, id: nat, p: Phase)
    requires Places(q, live, hands) && id in live && Queueing(live[id].phase) == Queueing(p)
    requires Aside(live, id) && p != Buffered && p != Carried && p != Waiting
    ensures Places(q, Move(live, id, p), hands)
  {
    hide QueueKeys, FlightKeys, OneCopy, MessageKey, RingOk, ListOk, FifosOk;
    KeysAfterMove(live, id, p);
    PlacesFrame(q, q, live, Move(live, id, p), hands, id);
  }

  lemma HoldsAppend(ms: seq<Msg>, live: map<nat, Live>, id: nat, p: Phase)
    requires SeqHolds(ms, live, p) && id in live && live[id].phase != p && live[id].msg.ticket == id
    ensures SeqHolds(ms + [live[id].msg], Move(live, id, p), p)
  {
  }

  /** A submission that enters the phase is appended to its list. */
  lemma ListAppend(ms: seq<Msg>, live: map<nat, Live>, id: nat, p: Phase)
    requires ListOk(ms, live, p) && id in live && live[id].phase != p && live[id].msg.ticket == id
    ensures ListOk(ms + [live[id].msg], Move(live, id, p), p)
  {
    hide SeqHolds;
    var m, live' := live[id].msg, Move(live, id, p);
    HoldsAppend(ms, live, id, p);
    assert (ms + [m])[|ms|] == m;
    forall j | InPhase(live', j, p) ensures live'[j].msg in ms + [m] {
      if j != id { assert InPhase(live, j, p); }
    }
  }

  /** A submission that leaves the phase is taken out of its list. */
  lemma ListRemove(ms: seq<Msg>, live: map<nat, Live>, k: nat, p: Phase, p': Phase)
    requires Named(live) && ListOk(ms, live, p) && k < |ms| && p' != p
    ensures InPhase(live, ms[k].ticket, p) && live[ms[k].ticket].msg == ms[k]
    ensures ListOk(Without(ms, k), Move(live, ms[k].ticket, p'), p)
  {
    var m, rest := ms[k], Without(ms, k);
    assert m.ticket in live && live[m.ticket].msg == m;
    var live' := Move(live, m.ticket, p');
    forall i | 0 <= i < |rest| ensures rest[i].ticket != m.ticket && rest[i] in ms {
      assert rest[i] == ms[if i < k then i else i + 1];
    }
    forall i, j | 0 <= i < j < |rest| ensures rest[i].ticket != rest[j].ticket {
      assert rest[i] == ms[if i < k then i else i + 1] && rest[j] == ms[if j < k then j else j + 1];
    }
    forall j | InPhase(live', j, p) ensures live'[j].msg in rest {
      assert j != m.ticket && InPhase(live, j, p);
      var i :| 0 <= i < |ms| && ms[i] == live[j].msg;
      assert rest[if i < k then i else i - 1] == live[j].msg;
    }
  }

  lemma PushKeepsPlaces(q: Core, live: map<nat, Live>, hands: seq<Msg>, id: nat)
    requires Places(q, live, hands) && InPhase(live, id, Sending)
    ensures Places(Push(q, live[id].msg), Move(live, id, Buffered), hands)
  {
    hide QueueKeys, FlightKeys, OneCopy, MessageKey, RingOk, FifosOk, ListOk;
    RingFrame(q, Push(q, live[id].msg));
    KeysAfterMove(live, id, Buffered);
    FifosFrame(q.pending, live, Move(live, id, Buffered), id);
    ListFrame(hands, live, Move(live, id, Buffered), id, Carried);
    ListAppend(q.channel, live, id, Buffered);
  }

  lemma ReceiveKeepsPlaces(q: Core, live: map<nat, Live>, hands: seq<Msg>)
    requires Places(q, live, hands) && q.channel != []
    ensures var m := q.channel[0];
      && InPhase(live, m.ticket, Buffered) && live[m.ticket].msg == m
      && Places(q.(channel := q.channel[1..]), Move(live, m.ticket, Carried), hands + [m])
  {
    hide QueueKeys, FlightKeys, OneCopy, MessageKey, RingOk, FifosOk, ListOk;
    var m := q.channel[0];
    ListRemove(q.channel, live, 0, Buffered, Carried);
    assert Without(q.channel, 0) == q.channel[1..];
    RingFrame(q, q.(channel := q.channel[1..]));
    KeysAfterMove(live, m.ticket, Carried);
    FifosFrame(q.pending, live, Move(live, m.ticket, Carried), m.ticket);
    ListAppend(hands, live, m.ticket, Carried);
  }

  lemma AddKeepsFifos(q: Core, live: map<nat, Live>, m: Msg)
    requires FifosOk(q.pending, live) && Named(live)
    requires InPhase(live, m.ticket, Carried) && live[m.ticket].msg == m
    ensures FifosOk(AddPending(q, m).pending, Move(live, m.ticket, Waiting))
  {
    hide SeqHolds;
    var live', pending := Move(live, m.ticket, Waiting), AddPending(q, m).pending;
    forall u | u in pending ensures SeqHolds(pending[u], live', Waiting) {
      if u != m.tenant {
        HoldsFrame(q.pending[u], live, live', m.ticket, Waiting);
      } else if u in q.pending {
        HoldsAppend(q.pending[u], live, m.ticket, Waiting);
      } else {
        HoldsNothing(live);
        HoldsAppend([], live, m.ticket, Waiting);
        assert [] + [m] == [m];
      }
    }
    assert m in pending[m.tenant];
    forall j | InPhase(live', j, Waiting)
      ensures live'[j].msg.tenant in pending && live'[j].msg in pending[live'[j].msg.tenant]
    {
      if j != m.ticket { assert InPhase(live, j, Waiting); }
    }
  }

  lemma HoldsNothing(live: map<nat, Live>)
    ensures SeqHolds([], live, Waiting)
  {
  }

  lemma FileKeepsPlaces(q: Core, live: map<nat, Live>, hands: seq<Msg>, k: nat)
    requires Places(q, live, hands) && k < |hands|
    ensures InPhase(live, hands[k].ticket, Carried) && live[hands[k].ticket].msg == hands[k]
    ensures Places(AddPending(q, hands[k]), Move(live, hands[k].ticket, Waiting), Without(hands, k))
  {
    hide QueueKeys, FlightKeys, OneCopy, MessageKey, RingOk, ListOk, FifosOk;
    var m := hands[k];
    ListRemove(hands, live, k, Carried, Waiting);
    AddPendingKeepsRing(q, m);
    KeysAfterMove(live, m.ticket, Waiting);
    AddKeepsFifos(q, live, m);
    ListFrame(q.channel, live, Move(live, m.ticket, Waiting), m.ticket, Buffered);
  }

  lemma HeadIsWaiting(q: Core, live: map<nat, Live>, hands: seq<Msg>, idx: nat)
    requires Places(q, live, hands) && idx < |q.ring|
    ensures q.ring[idx] in q.pending && q.pending[q.ring[idx]] != []
    ensures var m := q.pending[q.ring[idx]][0];
            Take(q, idx).1 == m && InPhase(live, m.ticket, Waiting) && live[m.ticket].msg == m && m.tenant == q.ring[idx]
  {
    hide QueueKeys, FlightKeys, OneCopy, MessageKey;
    var t := q.ring[idx];
    assert t in q.pending && q.pending[t] != [];
    assert SeqHolds(q.pending[t], live, Waiting);
    assert NormalizeTenant(q.pending[t][0].tenant) == t;
  }

  /** What taking the head leaves of the FIFOs. */
  lemma TakenPending(q: Core, idx: nat)
    requires idx < |q.ring| && q.ring[idx] in q.pending && q.pending[q.ring[idx]] != []
    ensures var t := q.ring[idx]; var rest := q.pending[t][1..];
      Take(q, idx).0.pending == if rest == [] then q.pending - {t} else q.pending[t := rest]
  {
    hide MessageKey;
  }

  lemma TakenSeqHolds(q: Core, live: map<nat, Live>, hands: seq<Msg>, idx: nat, u: string)
    requires Places(q, live, hands) && idx < |q.ring| && u in q.pending
    ensures var t := q.ring[idx];
      && t in q.pending && q.pending[t] != []
      && var live' := Move(live, q.pending[t][0].ticket, Handling);
         SeqHolds(if u == t then q.pending[t][1..] else q.pending[u], live', Waiting)
  {
    hide QueueKeys, FlightKeys, OneCopy, MessageKey, Take;
    HeadIsWaiting(q, live, hands, idx);
    var t := q.ring[idx];
    var m := q.pending[t][0];
    assert SeqHolds(q.pending[u], live, Waiting);
    if u != t {
      forall i | 0 <= i < |q.pending[u]| ensures q.pending[u][i].ticket != m.ticket {
        assert NormalizeTenant(q.pending[u][i].tenant) == u;
      }
    }
  }

  lemma TakenListed(q: Core, live: map<nat, Live>, hands: seq<Msg>, idx: nat, j: nat)
    requires Places(q, live, hands) && idx < |q.ring| && q.ring[idx] in q.pending && q.pending[q.ring[idx]] != []
    requires InPhase(live, j, Waiting) && j != q.pending[q.ring[idx]][0].ticket
    ensures var t, u := q.ring[idx], live[j].msg.tenant;
      u in q.pending && live[j].msg in if u == t then q.pending[t][1..] else q.pending[u]
  {
    hide QueueKeys, FlightKeys, OneCopy, MessageKey, Take;
    var fifo := q.pending[q.ring[idx]];
    if live[j].msg.tenant == q.ring[idx] {
      var i :| 0 <= i < |fifo| && fifo[i] == live[j].msg;
      assert fifo[1..][i - 1] == live[j].msg;
    }
  }

  lemma TakeKeepsFifos(q: Core, live: map<nat, Live>, hands: seq<Msg>, idx: nat)
    requires Places(q, live, hands) && idx < |q.ring|
    ensures FifosOk(Take(q, idx).0.pending, Move(live, Take(q, idx).1.ticket, Handling))
  {
    hide Take, MessageKey, SeqHolds, Places;
    HeadIsWaiting(q, live, hands, idx);
    TakenPending(q, idx);
    var t, pending := q.ring[idx], Take(q, idx).0.pending;
    var m := q.pending[t][0];
    var live' := Move(live, m.ticket, Handling);
    forall u | u in pending ensures SeqHolds(pending[u], live', Waiting) {
      TakenSeqHolds(q, live, hands, idx, u);
    }
    forall j | InPhase(live', j, Waiting)
      ensures live'[j].msg.tenant in pending && live'[j].msg in pending[live'[j].msg.tenant]
    {
      TakenListed(q, live, hands, idx, j);
    }
  }

  lemma TakeKeepsPlaces(q: Core, live: map<nat, Live>, hands: seq<Msg>, idx: nat)
    requires Places(q, live, hands) && idx < |q.ring|
    ensures q.ring[idx] in q.pending && q.pending[q.ring[idx]] != []
    ensures Places(Take(q, idx).0, Move(live, Take(q, idx).1.ticket, Handling), hands)
  {
    hide QueueKeys, FlightKeys, OneCopy, MessageKey, SeqHolds, RingOk, ListOk, FifosOk;
    HeadIsWaiting(q, live, hands, idx);
    TakeKeepsRing(q, idx);
    var m := Take(q, idx).1;
    KeysAfterMove(live, m.ticket, Handling);
    ListFrame(q.channel, live, Move(live, m.ticket, Handling), m.ticket, Buffered);
    ListFrame(hands, live, Move(live, m.ticket, Handling), m.ticket, Carried);
    TakeKeepsFifos(q, live, hands, idx);
  }

  lemma PopKeepsPlaces(q: Core, live: map<nat, Live>, hands: seq<Msg>, mgr: Mgr, now: int)
    requires Places(q, live, hands)
    ensures var (q', _, out) := Pop(q, mgr, now);
            Places(q', if out.None? then live else Move(live, out.value.ticket, Handling), hands)
  {
    hide QueueKeys, FlightKeys, OneCopy, MessageKey, SeqHolds, ListOk, FifosOk, Scan, Take;
    if q.ring != [] {
      var found := Scan(q.ring, q.cursor, |q.ring|, mgr, now).1;
      if found.Some? { TakeKeepsPlaces(q, live, hands, found.value); }
    }
  }

  lemma RetireKeepsPlaces(q: Core, live: map<nat, Live>, hands: seq<Msg>, id: nat, over: bool, final: bool, now: int, window: int)
    requires Places(q, live, hands) && id in live && live[id].phase.Settling?
    ensures Places(Retire(q, live[id].msg, over, final, now, window), Exit(live, id), hands)
  {
    hide QueueKeys, FlightKeys, OneCopy, MessageKey, PruneRecent, RingOk, ListOk, FifosOk;
    KeysAfterLeave(live, id);
    PlacesFrame(q, Retire(q, live[id].msg, over, final, now, window), live, Exit(live, id), hands, id);
  }

  /** Submissions outside the queue are not inside it, and a waiting retry is named like a submission. */
  ghost predicate FatesOk(fates: map<nat, Fate>, live: map<nat, Live>, issued: nat) {
    && (forall id :: id in live ==> id < issued && id !in fates)
    && (forall id :: id in fates ==> id < issued)
    && (forall id :: id in fates && fates[id].AwaitingRetry? ==> fates[id].msg.ticket == id && fates[id].msg.tenant != "")
  }

  /** A cancelled admission that the manager still counts belongs to a cancelled submission. */
  ghost predicate RolledOk(rolled: map<nat, Msg>, fates: map<nat, Fate>) {
    forall id :: id in rolled ==> id in fates && fates[id] == Cancelled && rolled[id].tenant != ""
  }

  ghost predicate PlacesOk(s: Sys) {
    Places(s.core, s.live, s.hands) && FatesOk(s.fates, s.live, s.issued) && RolledOk(s.rolled, s.fates)
  }

  lemma InitPlaces(cfg: Config, defaultPolicy: Policy, policies: map<string, Policy>, start: int)
    ensures PlacesOk(Init(cfg, defaultPolicy, policies, start))
  {
  }

  lemma FatesAfterMove(fates: map<nat, Fate>, live: map<nat, Live>, issued: nat, id: nat, p: Phase)
    requires FatesOk(fates, live, issued)
    ensures FatesOk(fates, Move(live, id, p), issued)
  {
  }

  lemma FatesAfterExit(fates: map<nat, Fate>, live: map<nat, Live>, issued: nat, id: nat, f: Fate)
    requires FatesOk(fates, live, issued) && id < issued
    requires f.AwaitingRetry? ==> f.msg.ticket == id && f.msg.tenant != ""
    ensures FatesOk(fates[id := f], Exit(live, id), issued)
    ensures id !in live ==> FatesOk(fates[id := f], live, issued)
  {
  }

  lemma FatesAfterOffer(s: Sys, m: Msg, now: int)
    requires FatesOk(s.fates, s.live, s.issued) && m.ticket < s.issued && m.ticket !in s.live
    ensures FatesOk(Offer(s, m, now).fates, Offer(s, m, now).live, s.issued) && Offer(s, m, now).issued == s.issued
  {
    hide Claim, Duplicate, MessageKey;
  }

  lemma FatesAfterIssue(fates: map<nat, Fate>, live: map<nat, Live>, issued: nat)
    requires FatesOk(fates, live, issued)
    ensures FatesOk(fates, live, issued + 1) && issued !in live
  {
  }

  /** The places of a system whose parts are in place. */
  lemma PlacesWhole(s: Sys)
    requires Places(s.core, s.live, s.hands) && FatesOk(s.fates, s.live, s.issued) && RolledOk(s.rolled, s.fates)
    ensures PlacesOk(s)
  {
  }

  lemma OfferPlaces(s: Sys, m: Msg, now: int)
    requires Places(s.core, s.live, s.hands) && FatesOk(s.fates, s.live, s.issued) && RolledOk(s.rolled, s.fates)
    requires m.ticket < s.issued && m.ticket !in s.live && m.ticket !in s.rolled && m.tenant != ""
    ensures PlacesOk(Offer(s, m, now))
  {
    hide Places, FatesOk, Claim, Duplicate, MessageKey, Enter, PlacesOk;
    ClaimKeepsPlaces(s.core, s.live, s.hands, m, now, s.cfg.dedupeWindow);
    FatesAfterOffer(s, m, now);
    PlacesWhole(Offer(s, m, now));
  }

  lemma SubmitPlaces(s: Sys, msg: Msg, now: int)
    requires PlacesOk(s)
    ensures PlacesOk(Offer(Issue(s, Ticketed(s, msg).attempt), Ticketed(s, msg), now))
  {
    hide Places, FatesOk, RolledOk, Offer;
    LiveFacts(s);
    FatesAfterIssue(s.fates, s.live, s.issued);
    OfferPlaces(Issue(s, Ticketed(s, msg).attempt), Ticketed(s, msg), now);
  }

  lemma RetryPlaces(s: Sys, id: nat, now: int)
    requires PlacesOk(s) && Enabled(s, RetryFires(id, now))
    ensures PlacesOk(Offer(s, Normalize(s.fates[id].msg), now))
  {
    hide Places, FatesOk, RolledOk, Offer;
    LiveFacts(s);
    OfferPlaces(s, Normalize(s.fates[id].msg), now);
  }

  lemma AbandonPlaces(s: Sys, id: nat)
    requires PlacesOk(s) && Enabled(s, RetryAbandoned(id))
    ensures PlacesOk(s.(fates := s.fates[id := Abandoned]))
  {
    hide Places, FatesOk;
    LiveFacts(s);
    FatesAfterExit(s.fates, s.live, s.issued, id, Abandoned);
  }

  /** A change of phase, whatever else happens to the manager and the clock. */
  lemma MovePlaces(s: Sys, s': Sys, id: nat, p: Phase)
    requires PlacesOk(s) && id in s.live && s'.live == Move(s.live, id, p) && Places(s'.core, s'.live, s'.hands)
    requires s'.fates == s.fates && s'.rolled == s.rolled && s'.issued == s.issued
    ensures PlacesOk(s')
  {
    hide Places, FatesOk, RolledOk, Move;
    FatesAfterMove(s.fates, s.live, s.issued, id, p);
  }

  lemma AskPlaces(s: Sys, id: nat, now: int)
    requires PlacesOk(s) && Enabled(s, AskManager(id, now))
    ensures PlacesOk(AskStep(s, id, now))
  {
    hide Places, FatesOk, RolledOk, Move, Admit, MessageKey, With, PlacesOk;
    PlacesParts(s);
    MoveKeepsPlaces(s.core, s.live, s.hands, id, Sending);
    MoveKeepsPlaces(s.core, s.live, s.hands, id, Refusing);
    var s' := AskStep(s, id, now);
    var p := if s'.live == Move(s.live, id, Sending) then Sending else Refusing;
    MovePlaces(s, s', id, p);
  }

  lemma PlacesParts(s: Sys)
    requires PlacesOk(s)
    ensures Places(s.core, s.live, s.hands) && FatesOk(s.fates, s.live, s.issued) && RolledOk(s.rolled, s.fates)
  {
  }

  lemma LeavePlaces(s: Sys, id: nat, fate: Fate)
    requires PlacesOk(s) && (InPhase(s.live, id, Refusing) || InPhase(s.live, id, Sending)) && !fate.AwaitingRetry?
    ensures PlacesOk(LeaveStep(s, id, fate))
    ensures fate == Cancelled ==> PlacesOk(LeaveStep(s, id, fate).(rolled := s.rolled[id := s.live[id].msg]))
  {
    hide Places, FatesOk, Exit, Unclaim, MessageKey;
    LiveFacts(s);
    UnclaimKeepsPlaces(s.core, s.live, s.hands, id);
    FatesAfterExit(s.fates, s.live, s.issued, id, fate);
  }

  lemma SendPlaces(s: Sys, id: nat)
    requires PlacesOk(s) && Enabled(s, Send(id))
    ensures PlacesOk(SendStep(s, id))
  {
    hide Places, FatesOk, RolledOk, Move, Push, PlacesOk;
    PlacesParts(s);
    PushKeepsPlaces(s.core, s.live, s.hands, id);
    MovePlaces(s, SendStep(s, id), id, Buffered);
  }

  lemma CancelPlaces(s: Sys, id: nat)
    requires PlacesOk(s) && Enabled(s, CancelBooks(id))
    ensures PlacesOk(CancelStep(s, id))
  {
    hide Places, FatesOk, MessageKey, Cancel, With;
  }

  lemma ReceivePlaces(s: Sys)
    requires PlacesOk(s) && Enabled(s, Receive)
    ensures PlacesOk(ReceiveStep(s))
  {
    hide Places, FatesOk, RolledOk, Move, PlacesOk;
    PlacesParts(s);
    ReceiveKeepsPlaces(s.core, s.live, s.hands);
    MovePlaces(s, ReceiveStep(s), s.core.channel[0].ticket, Carried);
  }

  lemma FilePlaces(s: Sys, k: nat)
    requires PlacesOk(s) && Enabled(s, File(k))
    ensures PlacesOk(FileStep(s, k))
  {
    hide Places, FatesOk, RolledOk, Move, AddPending, Without, PlacesOk;
    PlacesParts(s);
    FileKeepsPlaces(s.core, s.live, s.hands, k);
    MovePlaces(s, FileStep(s, k), s.hands[k].ticket, Waiting);
  }

  lemma PopPlaces(s: Sys, now: int)
    requires PlacesOk(s)
    ensures RingOk(s.core) && PlacesOk(PopStep(s, now))
  {
    hide Places, FatesOk, RolledOk, Move, Pop;
    LiveFacts(s);
    PopKeepsPlaces(s.core, s.live, s.hands, s.mgr, now);
    var out := Pop(s.core, s.mgr, now).2;
    if out.Some? { FatesAfterMove(s.fates, s.live, s.issued, out.value.ticket, Handling); }
  }

  lemma ReportPlaces(s: Sys, id: nat, failed: bool, now: int)
    requires PlacesOk(s) && Enabled(s, Report(id, failed, now))
    ensures PlacesOk(ReportStep(s, id, failed, now))
  {
    hide Places, FatesOk, RolledOk, Move, Reported, PlacesOk;
    PlacesParts(s);
    var p := if FinalFailure(s.cfg, s.live[id].msg, failed) then Marking else Settling(failed);
    MoveKeepsPlaces(s.core, s.live, s.hands, id, p);
    MovePlaces(s, ReportStep(s, id, failed, now), id, p);
  }

  lemma MarkPlaces(s: Sys, id: nat)
    requires PlacesOk(s) && Enabled(s, Mark(id))
    ensures PlacesOk(MarkStep(s, id))
  {
    hide Places, FatesOk, RolledOk, Move, Marked, PlacesOk;
    PlacesParts(s);
    MoveKeepsPlaces(s.core, s.live, s.hands, id, Settling(true));
    MovePlaces(s, MarkStep(s, id), id, Settling(true));
  }

  lemma FinishPlaces(s: Sys, id: nat, now: int)
    requires PlacesOk(s) && Enabled(s, Finish(id, now))
    ensures PlacesOk(FinishStep(s, id, now))
  {
    hide Places, FatesOk, Exit, Retire, MessageKey, FateAfter;
    LiveFacts(s);
    var m, failed := s.live[id].msg, s.live[id].phase.failed;
    var final := FinalFailure(s.cfg, m, failed);
    RetireKeepsPlaces(s.core, s.live, s.hands, id, !failed || final, final, now, s.cfg.dedupeWindow);
    FateNamed(m, failed, final);
    FatesAfterExit(s.fates, s.live, s.issued, id, FateAfter(m, failed, final));
  }

  lemma StepKeepsPlaces(s: Sys, step: Step)
    requires PlacesOk(s) && Enabled(s, step)
    ensures PlacesOk(Apply(s, step))
  {
    hide PlacesOk, RingOk, Offer, Issue, AskStep, LeaveStep, SendStep, CancelStep, ReceiveStep, FileStep, PopStep,
         ReportStep, MarkStep, FinishStep;
    RingOf(s);
    match step
    case Submit(msg, at) => SubmitPlaces(s, msg, at);
    case RetryFires(id, at) => RetryPlaces(s, id, at);
    case RetryAbandoned(id) => AbandonPlaces(s, id);
    case AskManager(id, at) => AskPlaces(s, id, at);
    case GiveBack(id) => LeavePlaces(s, id, Rejected);
    case Send(id) => SendPlaces(s, id);
    case CancelKey(id) => LeavePlaces(s, id, Cancelled);
    case CancelBooks(id) => CancelPlaces(s, id);
    case Receive => ReceivePlaces(s);
    case File(k) => FilePlaces(s, k);
    case PopOne(at) => PopPlaces(s, at);
    case Report(id, failed, at) => ReportPlaces(s, id, failed, at);
    case Mark(id) => MarkPlaces(s, id);
    case Finish(id, at) => FinishPlaces(s, id, at);
  }

  lemma FateNamed(m: Msg, failed: bool, final: bool)
    ensures var f := FateAfter(m, failed, final); f.AwaitingRetry? ==> f.msg.ticket == m.ticket && f.msg.tenant == m.tenant
  {
  }

  /** What the invariant says about single tickets. */
  lemma LiveFacts(s: Sys)
    requires PlacesOk(s)
    ensures RingOk(s.core)
    ensures forall id :: id in s.live ==> id < s.issued && id !in s.fates && s.live[id].msg.ticket == id && s.live[id].msg.tenant != ""
    ensures forall id :: id in s.fates ==> id < s.issued && id !in s.live
    ensures forall id :: id in s.fates && s.fates[id].AwaitingRetry? ==> s.fates[id].msg.ticket == id && s.fates[id].msg.tenant != ""
    ensures forall id :: id in s.rolled ==> id in s.fates && s.fates[id] == Cancelled && s.rolled[id].tenant != ""
  {
    hide KeysOk, ListOk, FifosOk, RingOk, MessageKey;
  }

  lemma RingOf(s: Sys)
    requires PlacesOk(s)
    ensures RingOk(s.core)
  {
  }

  lemma OneCopyOf(s: Sys)
    requires PlacesOk(s)
    ensures OneCopy(s.live)
  {
  }
}

/** The receive scheduler as the object it is (ReceiveScheduler with SchedSenders in
    HomaTransport.cc): the senders vector with its NULL prefix is changed in place and the
    event handlers decide by comparing indexes.  Every method is shown to do what the
    functions of Receiver and ReceiverEvents say. */
module SchedSenders {
  import opened Wrappers
  import opened Wire
  import opened Priority
  import opened HomaTypes
  import opened Keys
  import opened Inbound
  import opened SenderState
  import opened SchedList
  import opened Receiver
  import opened ReceiverEvents
  import opened Ranking
  import opened Granting

  datatype SchedState = SchedState(numToGrant: int, headIdx: int, numSenders: int, s: Addr, sInd: int)

  /** What insPoint answers for a sender that is not listed. */
  function StateOf(cfg: Config, rx: Rx, s: Addr): SchedState {
    if NeedsGrants(rx, s)
    then SchedState(cfg.numToGrant, PlaceOf(cfg, rx, s).head, |rx.list| + 1, s, PlaceOf(cfg, rx, s).idx)
    else SchedState(cfg.numToGrant, rx.head, |rx.list|, s, -1)
  }

  /** The vector: NULL exactly below the head, then the listed senders. */
  function Slots(head: nat, list: seq<Addr>): (v: seq<Option<Addr>>)
    ensures |v| == head + |list|
    ensures forall i :: 0 <= i < |v| ==> v[i] == if i < head then None else Some(list[i - head])
  {
    seq(head + |list|, i requires 0 <= i < head + |list| => if i < head then None else Some(list[i - head]))
  }

  function Live(v: seq<Option<Addr>>, head: nat): (l: seq<Addr>)
    requires head <= |v| && forall i :: head <= i < |v| ==> v[i].Some?
    ensures |l| == |v| - head && forall i :: 0 <= i < |l| ==> l[i] == v[head + i].value
  {
    seq(|v| - head, i requires 0 <= i < |v| - head => v[head + i].value)
  }

  lemma LiveSlots(head: nat, list: seq<Addr>)
    ensures Live(Slots(head, list), head) == list
  {
  }

  /** Both ways of taking an element out of the vector. */
  lemma EraseSlot(head: nat, list: seq<Addr>, j: nat)
    requires j < |list|
    ensures Slots(head, list)[..head + j] + Slots(head, list)[head + j + 1..] == Slots(head, list[..j] + list[j + 1..])
  {
    var a, b := Slots(head, list)[..head + j], Slots(head, list)[head + j + 1..];
    var c, d := list[..j], list[j + 1..];
    forall i | 0 <= i < |a + b|
      ensures (a + b)[i] == Slots(head, c + d)[i]
    {
      if i < head + j {
        assert (a + b)[i] == a[i];
      } else {
        assert (a + b)[i] == b[i - head - j] && (c + d)[i - head] == d[i - head - j];
      }
    }
  }

  lemma NullHead(head: nat, list: seq<Addr>)
    requires list != []
    ensures Slots(head, list)[head := None] == Slots(head + 1, list[..0] + list[1..])
  {
    assert list[..0] + list[1..] == list[1..];
  }

  lemma DropNulls(head: nat, list: seq<Addr>, k: nat)
    requires k <= head
    ensures Slots(head, list)[k..] == Slots(head - k, list)
  {
  }

  /** The vector shifted left and a sender inserted. */
  lemma PutSlot(head: nat, list: seq<Addr>, newHead: nat, r: nat, s: Addr)
    requires newHead <= head && r <= |list|
    ensures var v := Slots(head, list)[head - newHead..];
      && newHead + r <= |v|
      && v[..newHead + r] + [Some(s)] + v[newHead + r..] == Slots(newHead, list[..r] + [s] + list[r..])
  {
    DropNulls(head, list, head - newHead);
    InsertSlot(newHead, list, r, s);
  }

  lemma InsertSlot(head: nat, list: seq<Addr>, r: nat, s: Addr)
    requires r <= |list|
    ensures Slots(head, list)[..head + r] + [Some(s)] + Slots(head, list)[head + r..]
         == Slots(head, list[..r] + [s] + list[r..])
  {
    var a, b := Slots(head, list)[..head + r], Slots(head, list)[head + r..];
    var l := list[..r] + [s] + list[r..];
    forall i | 0 <= i < head + |l|
      ensures (a + [Some(s)] + b)[i] == Slots(head, l)[i]
    {
      if i < head + r {
        assert (a + [Some(s)] + b)[i] == a[i];
      } else if i > head + r {
        assert (a + [Some(s)] + b)[i] == b[i - head - r - 1] && l[i - head] == list[i - head - 1];
      }
    }
  }

  // ---- which slots change ----

  /** Taking out the sender at `ind`: at the head its slot becomes NULL and all others keep
      theirs, as long as the granted senders behind it have slots with priorities of their
      own; otherwise those behind it move up by one. */
  predicate Vacated(cfg: Config, v: seq<Option<Addr>>, head: nat, n: nat, ind: nat, v': seq<Option<Addr>>, head': int) {
    && ind < |v|
    && if ind == head && ind + Min(n - 1, cfg.numToGrant) < cfg.schedPrios
       then v' == v[ind := None] && head' == head + 1
       else v' == v[..ind] + v[ind + 1..] && head' == head
  }

  lemma RemovalVacates(cfg: Config, rx: Rx, j: nat)
    requires j < |rx.list| && rx.head >= 0
    ensures var rx' := RemoveAtRank(cfg, rx, j);
      && rx'.head >= 0
      && Vacated(cfg, Slots(rx.head, rx.list), rx.head, |rx.list|, rx.head + j, Slots(rx'.head, rx'.list), rx'.head)
  {
    NullHead(rx.head, rx.list);
    EraseSlot(rx.head, rx.list, j);
  }

  /** When the head slot is nulled every other sender keeps its slot and so its priority. */
  lemma OthersKeepSlots(cfg: Config, rx: Rx, k: nat)
    requires 0 < k < |rx.list| && rx.head + Min(|rx.list| - 1, cfg.numToGrant) < cfg.schedPrios && rx.head >= 0
    ensures var rx' := RemoveAtRank(cfg, rx, 0);
      && |rx'.list| == |rx.list| - 1 && rx'.list[k - 1] == rx.list[k]
      && PrioForIdx(cfg, rx'.head + (k - 1)) == PrioForIdx(cfg, rx.head + k)
  {
    RemovalVacates(cfg, rx, 0);
    var rx' := RemoveAtRank(cfg, rx, 0);
    assert Slots(rx'.head, rx'.list)[rx.head + k] == Slots(rx.head, rx.list)[rx.head + k];
  }

  /** Putting in a sender of rank `r` last seen at `last`: a new best one takes the empty slot
      before the head and all others keep theirs; otherwise those behind it move down by
      one, after as many NULLs as need be are dropped in front for the granted senders to
      have slots with priorities of their own. */
  predicate Filled(cfg: Config, v: seq<Option<Addr>>, head: nat, n: nat, r: nat, last: int, s: Addr,
                   v': seq<Option<Addr>>, head': int) {
    if r == 0 && head > 0 && head != last
    then head <= |v| && v' == v[head - 1 := Some(s)] && head' == head - 1
    else
      var drop := Max(0, head + Min(n + 1, cfg.numToGrant) - cfg.schedPrios);
      && drop <= head && head + r <= |v| && head' == head - drop
      && v' == v[drop..head + r] + [Some(s)] + v[head + r..]
  }

  lemma InsertionFills(cfg: Config, rx: Rx, s: Addr)
    requires HeadOk(cfg.schedPrios, cfg.numToGrant, rx.head, |rx.list|)
    ensures var rx' := Receiver.Insert(cfg, rx, s);
      && rx'.head >= 0
      && Filled(cfg, Slots(rx.head, rx.list), rx.head, |rx.list|, Rank(rx, s), LastIdx(rx, s), s,
                Slots(rx'.head, rx'.list), rx'.head)
  {
    InsHead(cfg.schedPrios, cfg.numToGrant, rx.head, |rx.list|, Rank(rx, s), LastIdx(rx, s));
    FilledTo(cfg, rx.head, rx.list, Rank(rx, s), LastIdx(rx, s), s, Receiver.Insert(cfg, rx, s).head);
  }

  lemma FilledTo(cfg: Config, head: nat, list: seq<Addr>, r: nat, last: int, s: Addr, head': nat)
    requires r <= |list|
    requires head' == if r == 0 && head > 0 && head != last then head - 1
                      else head - Max(0, head + Min(|list| + 1, cfg.numToGrant) - cfg.schedPrios)
    ensures Filled(cfg, Slots(head, list), head, |list|, r, last, s, Slots(head', list[..r] + [s] + list[r..]), head')
  {
    if r == 0 && head > 0 && head != last {
      FillGap(head, list, s);
    } else {
      DropAndInsert(head, list, head', r, s);
    }
  }

  lemma FillGap(head: nat, list: seq<Addr>, s: Addr)
    requires head > 0
    ensures Slots(head, list)[head - 1 := Some(s)] == Slots(head - 1, list[..0] + [s] + list[0..])
  {
    assert list[..0] + [s] + list[0..] == [s] + list;
  }

  lemma DropAndInsert(head: nat, list: seq<Addr>, newHead: nat, r: nat, s: Addr)
    requires newHead <= head && r <= |list|
    ensures var v := Slots(head, list);
      v[head - newHead..head + r] + [Some(s)] + v[head + r..] == Slots(newHead, list[..r] + [s] + list[r..])
  {
    var v, d := Slots(head, list), head - newHead;
    PutSlot(head, list, newHead, r, s);
    assert v[d..][..newHead + r] == v[d..head + r] && v[d..][newHead + r..] == v[head + r..];
  }

  /** Comparing slots before and after a grant tells what it did to the sender's rank. */
  lemma SentStates(cfg: Config, own: map<Ident, Addr>, rx: Rx, s: Addr)
    requires Unlisted(cfg, own, rx, s) && Rank(rx, s) < cfg.numToGrant
    ensures var rx1, b := GrantStep(cfg, own, rx, s).rx, StateOf(cfg, rx, s);
            var c := StateOf(cfg, rx1, s);
      && RxOk(cfg, own, rx1, {s})
      && 0 <= b.headIdx <= b.sInd < b.headIdx + cfg.numToGrant
      && (0 <= c.sInd <==> NeedsGrants(rx1, s))
      && (0 <= c.sInd ==> c.headIdx <= c.sInd)
      && (0 <= c.sInd < c.headIdx + cfg.numToGrant <==> Settled(cfg, rx1, s))
      && (b.sInd == c.sInd ==> Settled(cfg, rx1, s))
      && c.headIdx == AfterGrant(cfg, own, rx, s).head && c.numSenders == |AfterGrant(cfg, own, rx, s).list|
  {
    GrantStepOk(cfg, own, rx, s);
    var rx1 := GrantStep(cfg, own, rx, s).rx;
    var P, G, n, l := cfg.schedPrios, cfg.numToGrant, |rx.list|, LastIdx(rx, s);
    InsPlaceOk(P, G, rx.head, n, Rank(rx, s), l);
    InsPlaceOk(P, G, rx.head, n, Rank(rx1, s), l);
    SlotIsRank(P, G, rx.head, n, Rank(rx, s), Rank(rx1, s), l);
  }

  lemma ListedKnown(cfg: Config, own: map<Ident, Addr>, rx: Rx, ex: set<Addr>)
    requires RxOk(cfg, own, rx, ex)
    ensures forall t :: t in rx.list ==> t in rx.sx
  {
    forall t | t in rx.list
      ensures t in rx.sx
    {
      assert NeedsGrants(rx, t);
    }
  }

  lemma Assoc(a: seq<Pkt>, b: seq<Pkt>, c: seq<Pkt>)
    ensures a + b + c == a + (b + c)
  {
  }

  /** What remove leaves of the sender's state, and what the packet makes of it. */
  lemma RemovedState(cfg: Config, rx: Rx, p: Pkt)
    requires InboundAsserts(SxFor(cfg, rx, p.m.src), p)
    ensures var rx1 := ReceiverEvents.Remove(cfg, WithSender(cfg, rx, p.m.src), p.m.src);
            var x := SxFor(cfg, rx, p.m.src);
      && p.m.src in rx1.sx && rx1.sx[p.m.src].incomplete == x.incomplete
      && InboundAsserts(rx1.sx[p.m.src], p)
      && HandleInbound(rx1.sx[p.m.src], p) == Handled(SxAfter(cfg, rx, p), HandleInbound(x, p).complete)
  {
    RemoveFrame(cfg, WithSender(cfg, rx, p.m.src), p.m.src);
    var rx1 := ReceiverEvents.Remove(cfg, WithSender(cfg, rx, p.m.src), p.m.src);
    HandleIdx(SxFor(cfg, rx, p.m.src), rx1.sx[p.m.src], p);
  }

  /** What handleInboundPkt does to the receiver. */
  function InboundRx(rx: Rx, p: Pkt): Rx
    requires p.m.src in rx.sx && InboundAsserts(rx.sx[p.m.src], p)
  {
    var x := rx.sx[p.m.src];
    CountPkt(rx.(sx := rx.sx[p.m.src := HandleInbound(x, p).sx]), p.m.id in x.incomplete, p)
  }

  function InboundComplete(rx: Rx, p: Pkt): bool
    requires p.m.src in rx.sx && InboundAsserts(rx.sx[p.m.src], p)
  {
    HandleInbound(rx.sx[p.m.src], p).complete
  }

  /** AfterPkt by way of the state that remove leaves. */
  lemma AfterPktIs(cfg: Config, rx: Rx, p: Pkt) returns (rx1: Rx)
    requires InboundAsserts(SxFor(cfg, rx, p.m.src), p)
    ensures rx1 == ReceiverEvents.Remove(cfg, WithSender(cfg, rx, p.m.src), p.m.src)
    ensures p.m.src in rx1.sx && InboundAsserts(rx1.sx[p.m.src], p)
    ensures AfterPkt(cfg, rx, p) == InboundRx(rx1, p)
    ensures HandleInbound(SxFor(cfg, rx, p.m.src), p).complete == InboundComplete(rx1, p)
  {
    rx1 := ReceiverEvents.Remove(cfg, WithSender(cfg, rx, p.m.src), p.m.src);
    RemovedState(cfg, rx, p);
  }

  lemma HandleIdx(x: Sx, y: Sx, p: Pkt)
    requires InboundAsserts(x, p) && x.(lastIdx := 0) == y.(lastIdx := 0)
    ensures y == x.(lastIdx := y.lastIdx) && InboundAsserts(y, p)
    ensures HandleInbound(y, p) == Handled(HandleInbound(x, p).sx.(lastIdx := y.lastIdx), HandleInbound(x, p).complete)
  {
    assert y == x.(lastIdx := 0).(lastIdx := y.lastIdx);
  }

  predicate Stops(cur: SchedState) {
    0 <= cur.sInd < cur.headIdx + cur.numToGrant || cur.numSenders < cur.numToGrant
  }

  /** After a grant that left its sender unlisted in state `cur`, the sender is listed
      again, and unless that is the end of it `rest` is what granting goes on to do. */
  ghost predicate Follows(cfg: Config, own: map<Ident, Addr>, rx: Rx, cur: SchedState,
                          rest: Granted, bound: set<(Addr, nat)>) {
    var a := if 0 <= cur.sInd then Receiver.Insert(cfg, rx, cur.s) else rx;
    && cfg.Valid() && RxOk(cfg, own, a, {}) && a.head == cur.headIdx && |a.list| == cur.numSenders
    && (Stops(cur) ==> rest == Granted(a, []))
    && (!Stops(cur) ==> GoesOn(cfg, own, a, rest, bound))
  }

  /** What insPoint answers for a sender just removed: the slot it had. */
  lemma StateRemoved(cfg: Config, own: map<Ident, Addr>, rx: Rx, j: nat)
    requires RxOk(cfg, own, rx, {}) && j < |rx.list|
    ensures StateOf(cfg, RemoveAtRank(cfg, rx, j), rx.list[j])
         == SchedState(cfg.numToGrant, rx.head, |rx.list|, rx.list[j], rx.head + j)
  {
    RemoveThenInsert(cfg, own, rx, j);
    RemoveOk(cfg, own, rx, j);
    assert NeedsGrants(rx, rx.list[j]);
  }

  /** The sender in the last granted slot is granted next. */
  ghost predicate GoesOn(cfg: Config, own: map<Ident, Addr>, a: Rx, rest: Granted, bound: set<(Addr, nat)>) {
    && 1 <= cfg.numToGrant <= |a.list|
    && var rx2, t := RemoveAtRank(cfg, a, cfg.numToGrant - 1), a.list[cfg.numToGrant - 1];
    && Unlisted(cfg, own, rx2, t) && Rank(rx2, t) < cfg.numToGrant && Pending(rx2) < bound
    && rest == Settle(cfg, own, rx2, t)
  }

  ghost function Rest(cfg: Config, own: map<Ident, Addr>, rx: Rx, s: Addr): Granted
    requires Unlisted(cfg, own, rx, s) && Rank(rx, s) < cfg.numToGrant
  {
    if Done(cfg, own, rx, s) then Granted(AfterGrant(cfg, own, rx, s), [])
    else
      NextOk(cfg, own, rx, s);
      Settle(cfg, own, NextRx(cfg, own, rx, s), NextSender(cfg, own, rx, s))
  }

  lemma SettleGoesOn(cfg: Config, own: map<Ident, Addr>, rx: Rx, s: Addr)
    requires Unlisted(cfg, own, rx, s) && Rank(rx, s) < cfg.numToGrant && !Done(cfg, own, rx, s)
    ensures GoesOn(cfg, own, AfterGrant(cfg, own, rx, s), Rest(cfg, own, rx, s), Pending(rx))
  {
    NextOk(cfg, own, rx, s);
  }

  lemma SettleFollows(cfg: Config, own: map<Ident, Addr>, rx: Rx, s: Addr)
    requires Unlisted(cfg, own, rx, s) && Rank(rx, s) < cfg.numToGrant
    ensures var g, rest, all := GrantStep(cfg, own, rx, s), Rest(cfg, own, rx, s), Settle(cfg, own, rx, s);
      && Follows(cfg, own, g.rx, StateOf(cfg, g.rx, s), rest, Pending(rx))
      && all == Granted(rest.rx, g.grants + rest.grants)
  {
    SentStates(cfg, own, rx, s);
    AfterGrantOk(cfg, own, rx, s);
    if !Done(cfg, own, rx, s) {
      SettleGoesOn(cfg, own, rx, s);
    } else {
      var grants := GrantStep(cfg, own, rx, s).grants;
      assert grants + [] == grants;
    }
  }

  lemma {:induction false} NothingCounted(n: nat)
    ensures CtrSum(seq(n, i => 0)) == 0
  {
    if n > 0 {
      NothingCounted(n - 1);
      assert seq(n, i => 0)[1..] == seq(n - 1, i => 0);
    }
  }

  /** The second half of handleInboundPkt: the packet's bytes are added to the message, which
      goes to the application or, if it needs grants, back into mesgsToGrant (`queue`). */
  method AddPkt(x0: Sx, mesg0: InMsg, queue: seq<nat>, p: Pkt) returns (x: Sx, complete: bool)
    requires InboundAsserts(x0, p) && mesg0 == Lookup(x0, p)
    requires queue == if p.m.id in x0.incomplete && mesg0.toGrant > 0 then EraseQ(x0.incomplete, x0.queue, p.m.id)
                      else x0.queue
    ensures Handled(x, complete) == HandleInbound(x0, p)
  {
    var id := p.m.id;
    var mesg := FillInRxBytes(mesg0, p);
    complete := mesg.toReceive == 0;
    if complete {
      assert mesg.toGrant == 0 && mesg.grants == [];
      x := x0.(incomplete := x0.incomplete - {id}, queue := queue);
    } else if mesg.toGrant == 0 {
      x := x0.(incomplete := x0.incomplete[id := mesg], queue := queue);
    } else {
      var incomplete := x0.incomplete[id := mesg];
      x := x0.(incomplete := incomplete, queue := InsertQ(incomplete, queue, id));
    }
  }

  class ReceiveScheduler {
    const cfg: ValidConfig
    const addr: Addr
    var ipSendersMap: map<Addr, Sx>
    var senders: seq<Option<Addr>>
    var headIdx: nat
    var numSenders: nat
    var inflightSchedPerPrio: seq<int>
    var inflightUnschedPerPrio: seq<int>
    var inflightSchedBytes: int
    var inflightUnschedBytes: int
    var granted: seq<Pkt>               // grants handed to the send controller, in order

    ghost var rx: Rx                    // the same as a value

    ghost predicate Valid()
      reads this
    {
      && senders == Slots(headIdx, rx.list) && numSenders == |rx.list|
      && rx == Rx(addr, ipSendersMap, rx.list, headIdx, inflightSchedPerPrio, inflightUnschedPerPrio)
      && inflightSchedBytes == CtrSum(inflightSchedPerPrio) && inflightUnschedBytes == CtrSum(inflightUnschedPerPrio)
    }

    ghost predicate Ok(own: map<Ident, Addr>, ex: set<Addr>)
      reads this
    {
      Valid() && RxOk(cfg, own, rx, ex)
    }

    /** What every packet and every grant timer finds and leaves: the list is in order and
        each granted sender is served. */
    ghost predicate Serving(own: map<Ident, Addr>)
      reads this
    {
      Ok(own, {}) && ServedFirst(cfg, rx, cfg.numToGrant)
    }

    /** Work conservation, slot by slot: behind each of the first slots there is a sender
        whose grant timer runs or whose first message is at the limit, and the slot has a
        priority of its own. */
    lemma GrantedSlotServed(own: map<Ident, Addr>, ind: nat)
      requires Serving(own) && headIdx <= ind < headIdx + Min(numSenders, cfg.numToGrant)
      ensures ind < |senders| && senders[ind].Some? && senders[ind].value in ipSendersMap
      ensures var x := ipSendersMap[senders[ind].value];
              x.queue != [] && TopOk(x) && (x.timer || Top(x).inFlight >= cfg.maxOutstanding)
      ensures 0 <= PrioForIdx(cfg, ind) == cfg.allPrio - cfg.schedPrios + ind < cfg.allPrio
    {
      var i := ind - headIdx;
      Listed(cfg, own, rx, {}, i);
      TopIsOk(rx.sx[rx.list[i]], rx.list[i], own);
      assert rx.list[i] in rx.sx && Served(cfg, rx.sx[rx.list[i]]);
    }

    /** And it is one of the best: what it is granted for comes before all that any sender
        without such a slot waits for. */
    lemma GrantedSlotBest(own: map<Ident, Addr>, ind: nat, t: Addr, id: nat)
      requires Serving(own) && headIdx <= ind < headIdx + Min(numSenders, cfg.numToGrant)
      requires t in ipSendersMap && Waits(ipSendersMap[t], id)
      requires forall k :: headIdx <= k < headIdx + Min(numSenders, cfg.numToGrant) && k < |senders| ==>
                 senders[k] != Some(t)
      ensures ind < |senders| && senders[ind].Some? && senders[ind].value in ipSendersMap
      ensures var x := ipSendersMap[senders[ind].value];
              x.queue != [] && x.queue[0] in x.incomplete && Sooner(Top(x), ipSendersMap[t].incomplete[id])
    {
      forall i | 0 <= i < cfg.numToGrant && i < |rx.list|
        ensures rx.list[i] != t
      {
        assert senders[headIdx + i] == Some(rx.list[i]);
      }
      GrantedSooner(cfg, own, rx, ind - headIdx, t, id);
    }

    constructor (c: Config, a: Addr)
      requires c.Valid()
      ensures cfg == c && addr == a && Serving(map[]) && granted == []
      ensures rx == NewRx(c, a) && ipSendersMap == map[] && numSenders == 0 && headIdx == c.schedPrios
      ensures forall i :: 0 <= i < c.allPrio ==> inflightSchedPerPrio[i] == 0 == inflightUnschedPerPrio[i]
    {
      cfg, addr := c, a;
      ipSendersMap, granted := map[], [];
      senders := seq(c.schedPrios, i => None);
      headIdx, numSenders := c.schedPrios, 0;
      inflightSchedPerPrio := seq(c.allPrio, i => 0);
      inflightUnschedPerPrio := seq(c.allPrio, i => 0);
      inflightSchedBytes, inflightUnschedBytes := 0, 0;
      NothingCounted(c.allPrio);
      rx := NewRx(c, a);
    }

    /** Takes the sender at `ind` out of the vector: at the head its slot is nulled while
        the granted senders still fit behind it, otherwise the slot is erased. */
    method TakeOut(ind: nat, s: Addr, ghost j: nat)
      requires Valid() && ind == headIdx + j && j < numSenders
      requires senders[ind] == Some(s) && s in ipSendersMap
      modifies this`ipSendersMap, this`senders, this`headIdx, this`numSenders, this`rx
      ensures Valid()
      ensures j < |old(rx).list| && rx == RemoveAtRank(cfg, old(rx), j)
      ensures Vacated(cfg, old(senders), old(headIdx), old(numSenders), ind, senders, headIdx)
      ensures s in ipSendersMap && ipSendersMap[s].lastIdx == ind
    {
      assert rx.list[j] == s;
      RemovalVacates(cfg, rx, j);
      DropSlot(ind, j, rx.list);
      ipSendersMap := ipSendersMap[s := ipSendersMap[s].(lastIdx := ind)];
      rx := rx.(list := rx.list[..j] + rx.list[j + 1..], head := headIdx, sx := ipSendersMap);
    }

    /** The slot is nulled or erased. */
    method DropSlot(ind: nat, ghost j: nat, ghost list: seq<Addr>)
      requires senders == Slots(headIdx, list) && numSenders == |list| && j < |list| && ind == headIdx + j
      modifies this`senders, this`headIdx, this`numSenders
      ensures senders == Slots(headIdx, list[..j] + list[j + 1..]) && numSenders == |list| - 1
      ensures headIdx == HeadAfterRemove(cfg.schedPrios, cfg.numToGrant, old(headIdx), |list|, j)
    {
      numSenders := numSenders - 1;
      if ind == headIdx && ind + Min(numSenders, cfg.numToGrant) < cfg.schedPrios {
        NullHead(headIdx, list);
        senders := senders[ind := None];
        headIdx := headIdx + 1;
      } else {
        EraseSlot(headIdx, list, j);
        senders := senders[..ind] + senders[ind + 1..];
      }
    }

    /** An empty list starts again with every slot NULL. */
    method Reset()
      requires Valid() && numSenders == 0
      modifies this`senders, this`headIdx, this`rx
      ensures Valid() && rx == old(rx).(head := cfg.schedPrios) && rx.list == []
    {
      senders := seq(cfg.schedPrios, i => None);
      headIdx := cfg.schedPrios;
      rx := rx.(head := cfg.schedPrios);
    }

    /** std::lower_bound over the listed senders */
    method Search(s: Addr) returns (pos: nat)
      requires Valid()
      ensures pos == LowerBound(KeysOf(rx.sx, rx.list), KeyAt(rx.sx, s))
    {
      LiveSlots(headIdx, rx.list);
      pos := LowerBound(KeysOf(ipSendersMap, Live(senders, headIdx)), KeyAt(ipSendersMap, s));
    }

    /** std::upper_bound over the listed senders */
    method SearchAfter(s: Addr) returns (pos: nat)
      requires Valid()
      ensures pos == Rank(rx, s)
    {
      LiveSlots(headIdx, rx.list);
      pos := UpperBound(KeysOf(ipSendersMap, Live(senders, headIdx)), KeyAt(ipSendersMap, s));
    }

    /** remove.  The sender is found by its key. */
    method Remove(s: Addr, ghost own: map<Ident, Addr>) returns (ind: int)
      requires Ok(own, {}) && s in ipSendersMap
      modifies this`ipSendersMap, this`senders, this`headIdx, this`numSenders, this`rx
      ensures Valid()
      ensures rx == ReceiverEvents.Remove(cfg, old(rx), s)
      ensures 0 <= ind <==> NeedsGrants(old(rx), s)
      ensures 0 <= ind ==> old(headIdx) <= ind < |old(senders)| && old(senders)[ind] == Some(s)
      ensures 0 <= ind ==> Vacated(cfg, old(senders), old(headIdx), old(numSenders), ind, senders, headIdx)
      ensures 0 <= ind ==> s in ipSendersMap && ipSendersMap[s].lastIdx == ind
    {
      ghost var j := RemoveFinds(cfg, own, rx, s);
      if numSenders == 0 {
        Reset();
        return -1;
      }
      if ipSendersMap[s].queue == [] {
        return -1;
      }
      var pos := Search(s);
      LowerBoundFinds(KeysOf(rx.sx, rx.list), j);
      assert pos == j;
      ind := headIdx + pos;
      TakeOut(ind, s, j);
    }

    /** removeAt */
    method RemoveAt(rmIdx: int) returns (r: Option<Addr>)
      requires Valid() && forall t :: t in rx.list ==> t in ipSendersMap
      modifies this`ipSendersMap, this`senders, this`headIdx, this`numSenders, this`rx
      ensures Valid()
      ensures r.Some? <==> old(headIdx) <= rmIdx < old(headIdx + numSenders)
      ensures r.None? ==> rx == old(rx)
      ensures r.Some? ==> old(senders)[rmIdx] == r && rx == RemoveAtRank(cfg, old(rx), rmIdx - old(headIdx))
      ensures r.Some? ==> Vacated(cfg, old(senders), old(headIdx), old(numSenders), rmIdx, senders, headIdx)
      ensures r.Some? ==> r.value in ipSendersMap && ipSendersMap[r.value].lastIdx == rmIdx
    {
      if rmIdx < headIdx || rmIdx >= headIdx + numSenders {
        return None;
      }
      r := senders[rmIdx];
      assert r.value == rx.list[rmIdx - headIdx];
      TakeOut(rmIdx, r.value, rmIdx - headIdx);
    }

    /** insPoint: where a sender that is not listed belongs. */
    method InsPoint(s: Addr, ghost own: map<Ident, Addr>) returns (st: SchedState)
      requires Ok(own, {s}) && s in ipSendersMap
      ensures st == StateOf(cfg, rx, s)
    {
      if ipSendersMap[s].queue == [] {
        return SchedState(cfg.numToGrant, headIdx, numSenders, s, -1);
      }
      var pos := SearchAfter(s);
      var insIdx: int := headIdx + pos;
      var hIdx: int := headIdx;
      var numSxAfterIns := numSenders;
      if insIdx == hIdx {
        if insIdx > 0 && insIdx != ipSendersMap[s].lastIdx {
          hIdx := hIdx - 1;
          insIdx := insIdx - 1;
          assert senders[hIdx] == None;
        }
      }
      numSxAfterIns := numSxAfterIns + 1;
      var leftShift := Min(numSxAfterIns, Min(cfg.numToGrant, cfg.schedPrios)) - (cfg.schedPrios - hIdx);
      if leftShift > 0 {
        assert hIdx >= leftShift && senders[hIdx - leftShift] == None;
        hIdx := hIdx - leftShift;
        insIdx := insIdx - leftShift;
      }
      st := SchedState(cfg.numToGrant, hIdx, numSxAfterIns, s, insIdx);
    }

    /** Drops NULL slots in front until the head is at `head'`, and puts the sender in. */
    method PutAt(insIdx: nat, newHeadIdx: nat, s: Addr)
      requires Valid() && newHeadIdx <= headIdx && newHeadIdx <= insIdx <= newHeadIdx + numSenders
      modifies this`senders, this`headIdx, this`numSenders, this`rx
      ensures Valid()
      ensures var r, l := insIdx - newHeadIdx, old(rx).list;
              rx == old(rx).(list := l[..r] + [s] + l[r..], head := newHeadIdx)
    {
      PutSlot(headIdx, rx.list, newHeadIdx, insIdx - newHeadIdx, s);
      var leftShift := headIdx - newHeadIdx;
      senders := senders[leftShift..];
      numSenders := numSenders + 1;
      headIdx := newHeadIdx;
      senders := senders[..insIdx] + [Some(s)] + senders[insIdx..];
      rx := rx.(list := rx.list[..insIdx - newHeadIdx] + [s] + rx.list[insIdx - newHeadIdx..], head := headIdx);
    }

    /** insert */
    method Insert(s: Addr, ghost own: map<Ident, Addr>)
      requires Ok(own, {s}) && NeedsGrants(rx, s)
      modifies this`senders, this`headIdx, this`numSenders, this`rx
      ensures Ok(own, {})
      ensures rx == Receiver.Insert(cfg, old(rx), s)
      ensures Filled(cfg, old(senders), old(headIdx), old(numSenders), Rank(old(rx), s), LastIdx(old(rx), s), s,
                     senders, headIdx)
    {
      ghost var was := rx;
      var ins := InsPoint(s, own);
      InsPlaceOk(cfg.schedPrios, cfg.numToGrant, headIdx, numSenders, Rank(rx, s), LastIdx(rx, s));
      InsertOk(cfg, own, rx, s);
      PutAt(ins.sInd, ins.headIdx, s);
      InsertionFills(cfg, was, s);
    }

    /** numActiveSenders: the error it can throw is out of reach. */
    method NumActiveSenders(ghost own: map<Ident, Addr>) returns (n: nat)
      requires Ok(own, {})
      ensures n == Min(numSenders, cfg.numToGrant)
      ensures headIdx + n <= cfg.schedPrios
    {
      var i := headIdx;
      assert headIdx + numSenders >= 1;
      while i < headIdx + numSenders - 1
        invariant headIdx <= i
      {
        assert senders[i].Some?;
        i := i + 1;
      }
      if cfg.numToGrant >= numSenders {
        i := 0;
        while i < headIdx - 1
        {
          assert senders[i].None?;
          i := i + 1;
        }
        return numSenders;
      }
      if numSenders >= cfg.schedPrios && headIdx != 0 {
        if cfg.numToGrant >= cfg.schedPrios {
          assert false;
        }
      }
      return cfg.numToGrant;
    }

    /** addPendingGrantedBytes; `at` throws for a priority that there is not. */
    method AddPendingGranted(prio: nat, bytes: int)
      requires inflightSchedBytes == CtrSum(inflightSchedPerPrio)
      modifies this`inflightSchedPerPrio, this`inflightSchedBytes
      ensures inflightSchedPerPrio == Bump(old(inflightSchedPerPrio), prio, bytes)
      ensures inflightSchedBytes == CtrSum(inflightSchedPerPrio)
    {
      BumpSum(inflightSchedPerPrio, prio, bytes);
      if prio < |inflightSchedPerPrio| {
        inflightSchedBytes := inflightSchedBytes + bytes;
        inflightSchedPerPrio := inflightSchedPerPrio[prio := inflightSchedPerPrio[prio] + bytes];
      }
    }

    /** addPendingUnschedBytes, likewise */
    method AddPendingAt(prio: nat, bytes: int)
      requires inflightUnschedBytes == CtrSum(inflightUnschedPerPrio)
      modifies this`inflightUnschedPerPrio, this`inflightUnschedBytes
      ensures inflightUnschedPerPrio == Bump(old(inflightUnschedPerPrio), prio, bytes)
      ensures inflightUnschedBytes == CtrSum(inflightUnschedPerPrio)
    {
      BumpSum(inflightUnschedPerPrio, prio, bytes);
      if prio < |inflightUnschedPerPrio| {
        inflightUnschedBytes := inflightUnschedBytes + bytes;
        inflightUnschedPerPrio := inflightUnschedPerPrio[prio := inflightUnschedPerPrio[prio] + bytes];
      }
    }

    /** sendAndScheduleGrant, and the rule it follows on priority, length and timer */
    method SendAndScheduleGrant(s: Addr, prio: nat)
      requires Valid() && s in ipSendersMap && ipSendersMap[s].queue != [] && TopOk(ipSendersMap[s])
      modifies this`ipSendersMap, this`inflightSchedPerPrio, this`inflightSchedBytes, this`granted, this`rx
      ensures Valid()
      ensures var g := SentBy(old(rx), s, SendAndSchedule(cfg, addr, s, old(ipSendersMap[s]), prio));
              rx == g.rx && granted == old(granted) + g.grants
      ensures cfg.Valid() && prio < cfg.allPrio ==>
                SendRule(cfg, addr, s, old(ipSendersMap[s]), prio,
                         SendAndSchedule(cfg, addr, s, old(ipSendersMap[s]), prio))
    {
      ghost var x := ipSendersMap[s];
      PaceOrGrant(s, prio);
      if cfg.Valid() && prio < cfg.allPrio { SendFollowsRule(cfg, addr, s, x, prio); }
    }

    method PaceOrGrant(s: Addr, prio: nat)
      requires Valid() && s in ipSendersMap && ipSendersMap[s].queue != [] && TopOk(ipSendersMap[s])
      modifies this`ipSendersMap, this`inflightSchedPerPrio, this`inflightSchedBytes, this`granted, this`rx
      ensures Valid()
      ensures var g := SentBy(old(rx), s, SendAndSchedule(cfg, addr, s, old(ipSendersMap[s]), prio));
              rx == g.rx && granted == old(granted) + g.grants
    {
      var x := ipSendersMap[s];
      var grantPrio := GrantPrio(cfg, x, prio);
      if x.timer {
        if x.lastGrantPrio <= grantPrio {
          assert ipSendersMap == ipSendersMap[s := x];
          return;
        }
        x := x.(timer := false);
      }
      ipSendersMap := ipSendersMap[s := x];
      rx := rx.(sx := ipSendersMap);
      if Top(x).inFlight >= cfg.maxOutstanding {
        return;
      }
      SendGrant(s, Issue(cfg, addr, s, x, Min(Top(x).toGrant, cfg.grantMax), grantPrio));
    }

    /** A grant leaves and is counted. */
    method SendGrant(s: Addr, sent: Sent)
      requires Valid() && s in ipSendersMap && sent.grant.Some? && sent.grant.value.Grant?
      modifies this`ipSendersMap, this`inflightSchedPerPrio, this`inflightSchedBytes, this`granted, this`rx
      ensures Valid()
      ensures var g := SentBy(old(rx), s, sent); rx == g.rx && granted == old(granted) + g.grants
    {
      var g := sent.grant.value;
      AddPendingGranted(g.prio, DataWire(g));
      granted := granted + [g];
      ipSendersMap := ipSendersMap[s := sent.sx];
      rx := rx.(sx := ipSendersMap, schedCtr := inflightSchedPerPrio);
    }

    /** Grants the unlisted sender of state `st` at the priority of its slot and reacts. */
    method GrantAndSettle(st: SchedState, ghost own: map<Ident, Addr>)
      requires Valid() && Unlisted(cfg, own, rx, st.s) && Rank(rx, st.s) < cfg.numToGrant
      requires st == StateOf(cfg, rx, st.s)
      modifies this
      ensures Valid()
      ensures var g := Settle(cfg, own, old(rx), st.s); rx == g.rx && granted == old(granted) + g.grants
      decreases Pending(rx), 2
    {
      ghost var g, rest := GrantStep(cfg, own, rx, st.s), Rest(cfg, own, rx, st.s);
      SentStates(cfg, own, rx, st.s);
      SettleFollows(cfg, own, rx, st.s);
      TopIsOk(rx.sx[st.s], st.s, own);
      GrantedSlot(cfg.schedPrios, cfg.numToGrant, rx.head, |rx.list|, Rank(rx, st.s), LastIdx(rx, st.s));
      SendAndScheduleGrant(st.s, PrioForIdx(cfg, st.sInd));
      assert rx == g.rx;
      var cur := InsPoint(st.s, own);
      HandleGrantSentEvent(st, cur, rest, Pending(old(rx)), own);
      Assoc(old(granted), g.grants, rest.grants);
    }

    /** handleGrantSentEvent, after a grant.  It ends because fewer messages need grants
        every time it comes round. */
    method HandleGrantSentEvent(before: SchedState, cur: SchedState, ghost rest: Granted,
                                ghost bound: set<(Addr, nat)>, ghost own: map<Ident, Addr>)
      requires Ok(own, {cur.s}) && cur == StateOf(cfg, rx, cur.s) && before.numToGrant == cfg.numToGrant
      requires 0 <= before.headIdx <= before.sInd < before.headIdx + before.numToGrant
      requires before.sInd == cur.sInd ==> cur.sInd < cur.headIdx + cur.numToGrant
      requires 0 <= cur.sInd ==> cur.headIdx <= cur.sInd && 0 <= cur.headIdx
      requires Follows(cfg, own, rx, cur, rest, bound)
      modifies this
      ensures Valid()
      ensures rx == rest.rx && granted == old(granted) + rest.grants
      decreases bound, 1
    {
      if before.sInd == cur.sInd {
        Insert(cur.s, own);
        return;
      }
      if cur.sInd >= 0 {
        Insert(cur.s, own);
      }
      if (cur.sInd < 0 || cur.sInd >= cur.numToGrant + cur.headIdx) && cur.numSenders >= cur.numToGrant {
        GrantLast(cur, rest, bound, own);
      }
    }

    /** The sender in the last granted slot gets its turn. */
    method GrantLast(cur: SchedState, ghost rest: Granted, ghost bound: set<(Addr, nat)>, ghost own: map<Ident, Addr>)
      requires Ok(own, {}) && GoesOn(cfg, own, rx, rest, bound)
      requires cur.numToGrant == cfg.numToGrant && cur.headIdx == headIdx && cur.numSenders == numSenders
      modifies this
      ensures Valid()
      ensures rx == rest.rx && granted == old(granted) + rest.grants
      decreases bound, 0
    {
      var indToGrant := cur.headIdx + cur.numToGrant - 1;
      var sToGrant := TakeLast(indToGrant, rest, bound, own);
      GrantAndSettle(SchedState(cur.numToGrant, cur.headIdx, cur.numSenders, sToGrant, indToGrant), own);
    }

    method TakeLast(ind: int, ghost rest: Granted, ghost bound: set<(Addr, nat)>, ghost own: map<Ident, Addr>)
      returns (s: Addr)
      requires Ok(own, {}) && GoesOn(cfg, own, rx, rest, bound) && ind == headIdx + cfg.numToGrant - 1
      modifies this`ipSendersMap, this`senders, this`headIdx, this`numSenders, this`rx
      ensures Valid() && Unlisted(cfg, own, rx, s) && Rank(rx, s) < cfg.numToGrant && Pending(rx) < bound
      ensures rest == Settle(cfg, own, rx, s)
      ensures StateOf(cfg, rx, s) == SchedState(cfg.numToGrant, old(headIdx), old(numSenders), s, ind)
    {
      StateRemoved(cfg, own, rx, cfg.numToGrant - 1);
      s := RemoveListed(ind, cfg.numToGrant - 1, RemoveAtRank(cfg, rx, cfg.numToGrant - 1), own);
    }

    /** RemoveAt of a slot that has a sender. */
    method RemoveListed(rmIdx: int, ghost j: nat, ghost after: Rx, ghost own: map<Ident, Addr>) returns (s: Addr)
      requires Ok(own, {}) && j < |rx.list| && rmIdx == headIdx + j && after == RemoveAtRank(cfg, rx, j)
      modifies this`ipSendersMap, this`senders, this`headIdx, this`numSenders, this`rx
      ensures Valid() && s == old(rx).list[j] && rx == after
    {
      ListedKnown(cfg, own, rx, {});
      var r := RemoveAt(rmIdx);
      s := r.value;
    }

    /** handlePktArrivalEvent.  The branches for a sender that lost its place among the
        granted ones, and the errors for impossible positions, are out of reach. */
    method HandlePktArrivalEvent(before: SchedState, cur: SchedState, ghost own: map<Ident, Addr>)
      requires Ok(own, {cur.s}) && cur == StateOf(cfg, rx, cur.s)
      requires before.numToGrant == cfg.numToGrant
      requires 0 <= before.sInd ==> before.headIdx <= before.sInd && NeedsGrants(rx, cur.s)
      requires before.headIdx <= before.sInd < before.headIdx + before.numToGrant ==>
                 Rank(rx, cur.s) < cfg.numToGrant
      modifies this
      ensures Valid()
      ensures var g := React(cfg, own, old(rx), cur.s); rx == g.rx && granted == old(granted) + g.grants
    {
      InsPlaceOk(cfg.schedPrios, cfg.numToGrant, rx.head, |rx.list|, Rank(rx, cur.s), LastIdx(rx, cur.s));
      if cur.sInd < 0 {
        if before.sInd < 0 || before.sInd >= before.numToGrant + before.headIdx {
          return;
        }
        assert false;
      } else if cur.sInd >= cur.headIdx + cur.numToGrant {
        if before.sInd < 0 || before.sInd >= before.headIdx + before.numToGrant {
          Insert(cur.s, own);
          return;
        }
        assert false;
      } else if cur.sInd < cur.headIdx + cur.numToGrant {
        GrantAndSettle(cur, own);
      } else {
        assert false;
      }
    }

    /** handleGrantTimerEvent, when the timer of sender `s` has fired */
    method HandleGrantTimerEvent(s: Addr, ghost own: map<Ident, Addr>)
      requires Serving(own) && s in ipSendersMap && ipSendersMap[s].timer
      modifies this
      ensures Serving(own)
      ensures var g := TimerFires(cfg, own, old(rx), s); rx == g.rx && granted == old(granted) + g.grants
    {
      TimerFiresOk(cfg, own, rx, s);
      TimerOffAndGrant(s, own);
    }

    method TimerOffAndGrant(s: Addr, ghost own: map<Ident, Addr>)
      requires Ok(own, {}) && s in ipSendersMap && ipSendersMap[s].timer
      modifies this
      ensures Valid()
      ensures var g := TimerFires(cfg, own, old(rx), s); rx == g.rx && granted == old(granted) + g.grants
    {
      UnlistTimed(s, own);
      GrantUnlisted(s, own);
    }

    method UnlistTimed(s: Addr, ghost own: map<Ident, Addr>)
      requires Ok(own, {}) && s in ipSendersMap
      modifies this`ipSendersMap, this`senders, this`headIdx, this`numSenders, this`rx
      ensures Ok(own, {s}) && s in ipSendersMap && rx == ReceiverEvents.Remove(cfg, TimerOff(old(rx), s), s)
    {
      TimerOffOk(cfg, own, rx, s);
      TimerRemoveOk(cfg, own, rx, s);
      StopTimer(s);
      var _ := Remove(s, own);
    }

    method StopTimer(s: Addr)
      requires Valid() && s in ipSendersMap
      modifies this`ipSendersMap, this`rx
      ensures Valid() && rx == TimerOff(old(rx), s)
    {
      rx := TimerOff(rx, s);
      ipSendersMap := ipSendersMap[s := ipSendersMap[s].(timer := false)];
    }

    /** The rest of handleGrantTimerEvent, with the sender taken out of the list. */
    method GrantUnlisted(s: Addr, ghost own: map<Ident, Addr>)
      requires Ok(own, {s}) && s in ipSendersMap
      modifies this
      ensures Valid()
      ensures var g := React(cfg, own, old(rx), s); rx == g.rx && granted == old(granted) + g.grants
    {
      var st := InsPoint(s, own);
      if st.sInd < 0 {
        return;
      }
      InsPlaceOk(cfg.schedPrios, cfg.numToGrant, rx.head, |rx.list|, Rank(rx, s), LastIdx(rx, s));
      if st.sInd - st.headIdx >= cfg.numToGrant {
        Insert(s, own);
        return;
      }
      GrantAndSettle(st, own);
    }

    /** handleInboundPkt of the sender's state */
    method HandleInboundPkt(p: Pkt) returns (complete: bool)
      requires Valid() && p.m.src in ipSendersMap && InboundAsserts(ipSendersMap[p.m.src], p)
      modifies this`ipSendersMap, this`inflightSchedPerPrio, this`inflightUnschedPerPrio,
               this`inflightSchedBytes, this`inflightUnschedBytes, this`rx
      ensures Valid() && rx == InboundRx(old(rx), p) && complete == InboundComplete(old(rx), p)
    {
      var x, id := ipSendersMap[p.m.src], p.m.id;
      var mesg, queue := Lookup(x, p), x.queue;
      if id !in x.incomplete {
        AddPendingUnsched(p.hdr.others);
      } else {
        if mesg.toGrant > 0 {
          queue := EraseQ(x.incomplete, queue, id);
        }
        PendingBytesArrived(p);
      }
      x, complete := AddPkt(x, mesg, queue, p);
      ipSendersMap := ipSendersMap[p.m.src := x];
      rx := rx.(sx := ipSendersMap);
    }

    /** The unscheduled packets still to come, as the first one announces them. */
    method AddPendingUnsched(others: seq<PrioBytes>)
      requires Valid()
      modifies this`inflightUnschedPerPrio, this`inflightUnschedBytes, this`rx
      ensures Valid() && rx == old(rx).(unschedCtr := AddTable(old(rx).unschedCtr, others))
    {
      var i := 0;
      while i < |others|
        invariant 0 <= i <= |others|
        invariant AddTable(inflightUnschedPerPrio, others[i..]) == AddTable(old(rx).unschedCtr, others)
        invariant inflightUnschedBytes == CtrSum(inflightUnschedPerPrio)
        invariant unchanged(`rx)
      {
        assert others[i..][1..] == others[i + 1..];
        AddPendingAt(others[i].prio, BytesOnWire(others[i].bytes, UNSCHED_DATA));
        i := i + 1;
      }
      assert others[i..] == [];
      rx := rx.(unschedCtr := inflightUnschedPerPrio);
    }

    /** pendingBytesArrived */
    method PendingBytesArrived(p: Pkt)
      requires Valid() && !p.Grant?
      modifies this`inflightSchedPerPrio, this`inflightUnschedPerPrio,
               this`inflightSchedBytes, this`inflightUnschedBytes, this`rx
      ensures Valid() && rx == CountPkt(old(rx), true, p)
    {
      if p.Unsched? {
        AddPendingAt(p.prio, -(DataWire(p) as int));
      } else {
        AddPendingGranted(p.prio, -(DataWire(p) as int));
      }
      rx := rx.(schedCtr := inflightSchedPerPrio, unschedCtr := inflightUnschedPerPrio);
    }

    /** A sender not heard of before gets a state; then it is taken out of the list. */
    method Unlist(s: Addr, ghost own: map<Ident, Addr>) returns (ind: int)
      requires Ok(own, {})
      modifies this`ipSendersMap, this`senders, this`headIdx, this`numSenders, this`rx
      ensures Valid() && rx == ReceiverEvents.Remove(cfg, WithSender(cfg, old(rx), s), s)
      ensures 0 <= ind <==> NeedsGrants(old(rx), s)
      ensures 0 <= ind ==> old(headIdx) <= ind < old(headIdx) + |old(rx).list|
                           && old(rx).list[ind - old(headIdx)] == s
    {
      WithSenderOk(cfg, own, rx, s);
      if s !in ipSendersMap {
        ipSendersMap := ipSendersMap[s := NewSx(cfg)];
        rx := rx.(sx := ipSendersMap);
      }
      ind := Remove(s, own);
    }

    /** Unlist with its outcome named. */
    method UnlistOutcome(s: Addr, ghost after: Rx, ghost own: map<Ident, Addr>) returns (ind: int)
      requires Ok(own, {}) && after == ReceiverEvents.Remove(cfg, WithSender(cfg, rx, s), s)
      modifies this`ipSendersMap, this`senders, this`headIdx, this`numSenders, this`rx
      ensures Valid() && rx == after && ipSendersMap == after.sx
      ensures 0 <= ind <==> NeedsGrants(old(rx), s)
      ensures 0 <= ind ==> old(headIdx) <= ind < old(headIdx) + |old(rx).list|
                           && old(rx).list[ind - old(headIdx)] == s
    {
      ind := Unlist(s, own);
    }

    /** handleInboundPkt with its outcome named. */
    method HandleOutcome(p: Pkt, ghost after: Rx, ghost done: bool) returns (complete: bool)
      requires Valid() && p.m.src in ipSendersMap && InboundAsserts(ipSendersMap[p.m.src], p)
      requires InboundRx(rx, p) == after && InboundComplete(rx, p) == done
      modifies this`ipSendersMap, this`inflightSchedPerPrio, this`inflightUnschedPerPrio,
               this`inflightSchedBytes, this`inflightUnschedBytes, this`rx
      ensures Valid() && rx == after && complete == done
    {
      complete := HandleInboundPkt(p);
    }

    /** processReceivedPkt */
    method ProcessReceivedPkt(p: Pkt, ghost own: map<Ident, Addr>) returns (complete: bool)
      requires Serving(own) && Welcome(cfg, own, rx, p)
      modifies this
      ensures Serving(own)
      ensures var a := Arrival(cfg, own, old(rx), p);
              rx == a.rx && granted == old(granted) + a.grants && complete == a.complete
    {
      ArrivalOk(cfg, own, rx, p);
      complete := TakeInAndGrant(p, own);
    }

    method TakeInAndGrant(p: Pkt, ghost own: map<Ident, Addr>) returns (complete: bool)
      requires Ok(own, {}) && Welcome(cfg, own, rx, p)
      modifies this
      ensures Valid()
      ensures var a := Arrival(cfg, own, old(rx), p);
              rx == a.rx && granted == old(granted) + a.grants && complete == a.complete
    {
      var before;
      before, complete := TakeInRanked(p, own);
      var cur := InsPoint(p.m.src, own);
      HandlePktArrivalEvent(before, cur, own);
    }

    /** The first part of processReceivedPkt: the sender is taken out of the list and the
        packet is handled, which never worsens the sender's rank. */
    method TakeInRanked(p: Pkt, ghost own: map<Ident, Addr>) returns (before: SchedState, complete: bool)
      requires Ok(own, {}) && Welcome(cfg, own, rx, p)
      modifies this`ipSendersMap, this`senders, this`headIdx, this`numSenders,
               this`inflightSchedPerPrio, this`inflightUnschedPerPrio,
               this`inflightSchedBytes, this`inflightUnschedBytes, this`rx
      ensures Ok(own, {p.m.src}) && p.m.src in ipSendersMap && rx == AfterPkt(cfg, old(rx), p)
      ensures complete == HandleInbound(SxFor(cfg, old(rx), p.m.src), p).complete
      ensures before.numToGrant == cfg.numToGrant
      ensures 0 <= before.sInd ==> before.headIdx <= before.sInd && NeedsGrants(rx, p.m.src)
      ensures before.headIdx <= before.sInd < before.headIdx + before.numToGrant ==> Rank(rx, p.m.src) < cfg.numToGrant
    {
      ghost var j := AfterPktRank(cfg, own, rx, p);
      ListedOnce(cfg, own, rx, {});
      ghost var rx1 := AfterPktIs(cfg, rx, p);
      ghost var after, done := AfterPkt(cfg, rx, p), InboundComplete(rx1, p);
      before := SchedState(cfg.numToGrant, headIdx, numSenders, p.m.src, 0);
      var sIndOld := UnlistOutcome(p.m.src, rx1, own);
      before := before.(sInd := sIndOld);
      complete := HandleOutcome(p, after, done);
    }
  }
}

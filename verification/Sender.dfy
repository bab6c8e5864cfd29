/** The send side of a host as a value: messages being sent, packets and grants waiting
    for the link, and what the application, a grant or the link timer do to them
    (SendController and OutboundMessage in HomaTransport.cc). */
module Sender {
  import opened Wire
  import opened Packetize
  import opened Priority
  import opened HomaTypes
  import opened Inbound

  function Sizes(cfg: Config, size: nat): (s: seq<nat>)
    ensures s != []
  {
    PktSizes(cfg.req, cfg.unsched, size)
  }

  function Unscheduled(cfg: Config, size: nat): nat { TotalUnsched(cfg.req, cfg.unsched, size) }

  function Prios(cfg: Config, size: nat): (prios: seq<nat>)
    requires cfg.Valid() && size <= UINT32_MAX
    ensures |prios| == |Sizes(cfg, size)|
  {
    PktSizesSum(cfg.req, cfg.unsched, size);
    UnschedPktsPrio(cfg.mode, cfg.cutOffs, size, Sizes(cfg, size))
  }

  /** Packet `i` of those a message starts with: the request, then unscheduled data. */
  function PlanPkt(cfg: Config, m: MsgRef, spec: Spec, i: nat): Pkt
    requires cfg.Valid() && ValidSpec(spec) && i < |Sizes(cfg, spec.size)|
  {
    var sizes, prios := Sizes(cfg, spec.size), Prios(cfg, spec.size);
    var table := OthersTable(Group(prios, sizes, |sizes|), prios[i], sizes[i]);
    Unsched(m, spec.dst, i == 0, SumSeq(sizes[..i]), sizes[i], prios[i],
            UnschedHdr(spec.size, spec.created, Unscheduled(cfg, spec.size), table))
  }

  /** prepareRequestAndUnsched */
  function Plan(cfg: Config, m: MsgRef, spec: Spec): (plan: seq<Pkt>)
    requires cfg.Valid() && ValidSpec(spec)
    ensures |plan| == |Sizes(cfg, spec.size)|
    ensures forall i :: 0 <= i < |plan| ==> plan[i] == PlanPkt(cfg, m, spec, i)
  {
    seq(|Sizes(cfg, spec.size)|, i requires 0 <= i < |Sizes(cfg, spec.size)| => PlanPkt(cfg, m, spec, i))
  }

  datatype OutMsg = OutMsg(dst: Addr, size: nat, created: int,
    toSched: int,           // bytesToSched
    left: int)              // bytesLeft

  datatype Tx = Tx(
    out: map<nat, OutMsg>,      // outboundMsgMap
    queued: multiset<Pkt>,      // txPkts of all messages
    grantQ: multiset<Pkt>,      // outGrantQueue
    busy: bool)                 // the send timer is scheduled

  const NEW_TX := Tx(map[], multiset{}, multiset{}, false)

  function NewOut(cfg: Config, spec: Spec): OutMsg {
    OutMsg(spec.dst, spec.size, spec.created, spec.size - Unscheduled(cfg, spec.size), spec.size)
  }

  /** processSendMsgFromApp, before anything is sent */
  function Accept(cfg: Config, tx: Tx, m: MsgRef, spec: Spec): Tx
    requires cfg.Valid() && ValidSpec(spec)
  {
    tx.(out := tx.out[m.id := NewOut(cfg, spec)], queued := tx.queued + multiset(Plan(cfg, m, spec)))
  }

  /** The scheduled packet prepareSchedPkt makes for a grant: never more than the message
      still has to schedule. */
  function Answer(o: OutMsg, g: Pkt): Pkt
    requires g.Grant? && o.toSched >= 0
  {
    Sched(g.m, g.dst, g.first, Min(g.len, o.toSched), g.prio)
  }

  /** processReceivedGrant, before anything is sent */
  function TakeGrant(tx: Tx, g: Pkt): Tx
    requires g.Grant? && g.m.id in tx.out && tx.out[g.m.id].toSched >= 0
  {
    var o := tx.out[g.m.id];
    var p := Answer(o, g);
    tx.(out := tx.out[g.m.id := o.(toSched := o.toSched - p.len)], queued := tx.queued + multiset{p})
  }

  /** A data packet leaves; a message with nothing left to send is dropped. */
  function Transmit(tx: Tx, p: Pkt): Tx
    requires p.m.id in tx.out
  {
    var o := tx.out[p.m.id].(left := tx.out[p.m.id].left - p.len);
    Tx(if o.left <= 0 then tx.out - {p.m.id} else tx.out[p.m.id := o], tx.queued - multiset{p}, tx.grantQ, true)
  }

  /** A grant leaves at once when the link is idle and waits otherwise. */
  function Emit(tx: Tx, g: Pkt): Tx {
    if tx.busy then tx.(grantQ := tx.grantQ + multiset{g}) else tx.(busy := true)
  }

  function Emitted(tx: Tx, g: Pkt): multiset<Pkt> {
    if tx.busy then multiset{} else multiset{g}
  }

  lemma PrefixSum(s: seq<Pkt>, k: nat, w: Weight)
    requires 0 < k <= |s|
    ensures SumList(s[..k], w) == SumList(s[..k - 1], w) + Weigh(w, s[k - 1])
  {
    assert s[..k][..k - 1] == s[..k - 1];
  }

  lemma {:induction false} WireOfAppend(s: seq<nat>, x: nat, hdr: nat)
    requires hdr < MAX_ETHERNET_PAYLOAD_BYTES - IP_HEADER_SIZE - UDP_HEADER_SIZE
    ensures WireOf(s + [x], hdr) == WireOf(s, hdr) + BytesOnWireHdr(x, hdr)
  {
    if s == [] {
      assert s + [x] == [x];
    } else {
      assert (s + [x])[1..] == s[1..] + [x];
      WireOfAppend(s[1..], x, hdr);
    }
  }

  /** Where packet `i` of the plan lies. */
  lemma PlanAt(cfg: Config, m: MsgRef, spec: Spec, i: nat)
    requires cfg.Valid() && ValidSpec(spec) && i < |Sizes(cfg, spec.size)|
    ensures var p, sizes := Plan(cfg, m, spec)[i], Sizes(cfg, spec.size);
      && p.Unsched? && p.m == m && p.len == sizes[i] && p.prio == Prios(cfg, spec.size)[i]
      && p.first == SumSeq(sizes[..i]) && p.first + p.len == SumSeq(sizes[..i + 1])
      && sizes[..i + 1] == sizes[..i] + [sizes[i]]
  {
    var sizes := Sizes(cfg, spec.size);
    assert sizes[..i + 1] == sizes[..i] + [sizes[i]];
    SumSeqAppend(sizes[..i], sizes[i]);
  }

  /** Unscheduled packets of message `m` with these priorities and lengths. */
  predicate Carries(s: seq<Pkt>, m: MsgRef, prios: seq<nat>, lens: seq<nat>) {
    && |s| == |prios| == |lens|
    && forall i :: 0 <= i < |s| ==> s[i].Unsched? && s[i].m == m && s[i].prio == prios[i] && s[i].len == lens[i]
  }

  lemma {:induction false} ListBytes(s: seq<Pkt>, m: MsgRef, prios: seq<nat>, lens: seq<nat>, k: nat)
    requires Carries(s, m, prios, lens) && k <= |s|
    ensures SumList(s[..k], UBytes(m)) == SumSeq(lens[..k])
  {
    if k > 0 {
      ListBytes(s, m, prios, lens, k - 1);
      PrefixSum(s, k, UBytes(m));
      SumSeqStep(lens, k);
    }
  }

  lemma WireOfStep(lens: seq<nat>, k: nat, hdr: nat)
    requires 0 < k <= |lens| && hdr < MAX_ETHERNET_PAYLOAD_BYTES - IP_HEADER_SIZE - UDP_HEADER_SIZE
    ensures WireOf(lens[..k], hdr) == WireOf(lens[..k - 1], hdr) + BytesOnWireHdr(lens[k - 1], hdr)
  {
    assert lens[..k] == lens[..k - 1] + [lens[k - 1]];
    WireOfAppend(lens[..k - 1], lens[k - 1], hdr);
  }

  lemma {:induction false} ListWire(s: seq<Pkt>, m: MsgRef, prios: seq<nat>, lens: seq<nat>, k: nat)
    requires Carries(s, m, prios, lens) && k <= |s|
    ensures SumList(s[..k], WireBytes(m)) == WireOf(lens[..k], HeaderSize(UNSCHED_DATA))
  {
    if k > 0 {
      ListWire(s, m, prios, lens, k - 1);
      PrefixSum(s, k, WireBytes(m));
      WireOfStep(lens, k, HeaderSize(UNSCHED_DATA));
    }
  }

  lemma {:induction false} ListWireAt(s: seq<Pkt>, m: MsgRef, prios: seq<nat>, lens: seq<nat>, prio: nat, k: nat)
    requires Carries(s, m, prios, lens) && k <= |s|
    ensures SumList(s[..k], UWire(m, prio)) == WireAt(prios, lens, k, -1, prio)
  {
    if k > 0 {
      ListWireAt(s, m, prios, lens, prio, k - 1);
      PrefixSum(s, k, UWire(m, prio));
    }
  }

  lemma PlanCarries(cfg: Config, m: MsgRef, spec: Spec)
    requires cfg.Valid() && ValidSpec(spec)
    ensures Carries(Plan(cfg, m, spec), m, Prios(cfg, spec.size), Sizes(cfg, spec.size))
  {
  }

  /** The packets lie end to end from the first byte on. */
  predicate EndToEnd(s: seq<Pkt>, m: MsgRef) {
    forall i :: 0 <= i < |s| ==>
      s[i].m == m && s[i].first == if i == 0 then 0 else s[i - 1].first + s[i - 1].len
  }

  lemma {:induction false} EndToEndCovers(s: seq<Pkt>, m: MsgRef, b: nat, k: nat)
    requires EndToEnd(s, m) && k <= |s|
    ensures SumList(s[..k], Covers(m, b)) == if k > 0 && b < s[k - 1].first + s[k - 1].len then 1 else 0
  {
    if k > 0 {
      EndToEndCovers(s, m, b, k - 1);
      PrefixSum(s, k, Covers(m, b));
      var p := s[k - 1];
      assert p.m == m && p.first == if k == 1 then 0 else s[k - 2].first + s[k - 2].len;
      assert Weigh(Covers(m, b), p) == if p.first <= b < p.first + p.len then 1 else 0;
    }
  }

  lemma PlanEndToEnd(cfg: Config, m: MsgRef, spec: Spec)
    requires cfg.Valid() && ValidSpec(spec)
    ensures EndToEnd(Plan(cfg, m, spec), m)
    ensures var plan := Plan(cfg, m, spec);
            plan[|plan| - 1].first + plan[|plan| - 1].len == Unscheduled(cfg, spec.size)
  {
    var plan, sizes := Plan(cfg, m, spec), Sizes(cfg, spec.size);
    forall i | 0 <= i < |plan|
      ensures plan[i].m == m && plan[i].first == SumSeq(sizes[..i]) && plan[i].len == sizes[i]
    {
      assert plan[i] == PlanPkt(cfg, m, spec, i);
    }
    ListEndToEnd(plan, m, sizes);
    PktSizesSum(cfg.req, cfg.unsched, spec.size);
  }

  lemma ListEndToEnd(s: seq<Pkt>, m: MsgRef, lens: seq<nat>)
    requires |s| == |lens| > 0
    requires forall i :: 0 <= i < |s| ==> s[i].m == m && s[i].first == SumSeq(lens[..i]) && s[i].len == lens[i]
    ensures EndToEnd(s, m) && s[|s| - 1].first + s[|s| - 1].len == SumSeq(lens)
  {
    forall i | 0 < i < |s|
      ensures s[i].first == s[i - 1].first + s[i - 1].len
    {
      SumSeqStep(lens, i);
    }
    SumSeqStep(lens, |lens|);
    assert lens[..|lens|] == lens;
  }

  lemma WholePlan(cfg: Config, m: MsgRef, spec: Spec, w: Weight)
    requires cfg.Valid() && ValidSpec(spec)
    ensures var n := |Sizes(cfg, spec.size)|;
      && Sum(multiset(Plan(cfg, m, spec)), w) == SumList(Plan(cfg, m, spec)[..n], w)
      && Sizes(cfg, spec.size)[..n] == Sizes(cfg, spec.size)
  {
    var n := |Sizes(cfg, spec.size)|;
    assert Plan(cfg, m, spec)[..n] == Plan(cfg, m, spec);
    SumOfList(Plan(cfg, m, spec), w);
  }

  /** The unscheduled packets add up to what the receiver will expect of them. */
  lemma PlanCounts(cfg: Config, m: MsgRef, spec: Spec)
    requires cfg.Valid() && ValidSpec(spec)
    ensures var bag := multiset(Plan(cfg, m, spec));
      && Sum(bag, UBytes(m)) == Unscheduled(cfg, spec.size)
      && Sum(bag, WireBytes(m)) == BytesOnWire(Unscheduled(cfg, spec.size), UNSCHED_DATA)
  {
    var n := |Sizes(cfg, spec.size)|;
    WholePlan(cfg, m, spec, UBytes(m));
    WholePlan(cfg, m, spec, WireBytes(m));
    PlanCarries(cfg, m, spec);
    ListBytes(Plan(cfg, m, spec), m, Prios(cfg, spec.size), Sizes(cfg, spec.size), n);
    ListWire(Plan(cfg, m, spec), m, Prios(cfg, spec.size), Sizes(cfg, spec.size), n);
    PktSizesSum(cfg.req, cfg.unsched, spec.size);
    ExactForSize(cfg.req, cfg.unsched, spec.size);
  }

  lemma PlanHas(cfg: Config, m: MsgRef, spec: Spec, p: Pkt) returns (i: nat)
    requires cfg.Valid() && ValidSpec(spec) && p in multiset(Plan(cfg, m, spec))
    ensures i < |Sizes(cfg, spec.size)| && p == PlanPkt(cfg, m, spec, i)
  {
    i :| 0 <= i < |Plan(cfg, m, spec)| && Plan(cfg, m, spec)[i] == p;
  }

  /** What the packets a message starts with say: only the first is a request; each carries
      on where the one before ends, at the priority the resolver gives it; all tell the
      receiver the size, the time and the number of unscheduled bytes. */
  lemma PlanTells(cfg: Config, m: MsgRef, spec: Spec, i: nat)
    requires cfg.Valid() && ValidSpec(spec) && i < |Sizes(cfg, spec.size)|
    ensures var plan := Plan(cfg, m, spec);
            var p := plan[i];
      && p.Unsched? && p.m == m && p.dst == spec.dst && (p.request <==> i == 0)
      && p.first == (if i == 0 then 0 else plan[i - 1].first + plan[i - 1].len)
      && PrioOfPkt(cfg.mode, cfg.cutOffs, spec.size, Sizes(cfg, spec.size), i, p.prio)
      && p.hdr.size == spec.size && p.hdr.created == spec.created && p.hdr.total == Unscheduled(cfg, spec.size)
  {
    var sizes := Sizes(cfg, spec.size);
    PktSizesSum(cfg.req, cfg.unsched, spec.size);
    UnschedPrioMeans(cfg.mode, cfg.cutOffs, spec.size, sizes, i);
    if i > 0 { SumSeqStep(sizes, i); }
  }

  /** Every packet of the plan lies within the unscheduled bytes. */
  lemma PlanFits(cfg: Config, m: MsgRef, spec: Spec, i: nat)
    requires cfg.Valid() && ValidSpec(spec) && i < |Sizes(cfg, spec.size)|
    ensures var p := PlanPkt(cfg, m, spec, i);
      && p.first + p.len <= Unscheduled(cfg, spec.size)
      && (spec.size > 0 ==> p.len > 0)
      && p.prio < cfg.allPrio
  {
    var sizes := Sizes(cfg, spec.size);
    PktSizesSum(cfg.req, cfg.unsched, spec.size);
    SumSeqPrefixes(sizes);
    PlanAt(cfg, m, spec, i);
    assert SumSeq(sizes[..i + 1]) <= SumSeq(sizes);
    PktSizesBounds(cfg.req, cfg.unsched, spec.size, i);
    UnschedPriosMonotone(cfg.mode, cfg.cutOffs, spec.size, sizes);
  }

  lemma PlanAllFit(cfg: Config, m: MsgRef, spec: Spec)
    requires cfg.Valid() && ValidSpec(spec)
    ensures forall p :: p in multiset(Plan(cfg, m, spec)) ==>
      p.Unsched? && p.m == m && PktFits(Announced(m, spec.size, spec.created, Unscheduled(cfg, spec.size)), p)
  {
    forall p | p in multiset(Plan(cfg, m, spec))
      ensures p.Unsched? && p.m == m && PktFits(Announced(m, spec.size, spec.created, Unscheduled(cfg, spec.size)), p)
    {
      var k := PlanHas(cfg, m, spec, p);
      PlanFits(cfg, m, spec, k);
    }
  }

  /** Unscheduled packets are no chunks of granted bytes. */
  lemma NothingGranted(m: MsgRef, bag: multiset<Pkt>)
    requires forall p :: p in bag ==> p.Unsched?
    ensures Sum(bag, SBytes(m)) == 0 == Sum(bag, GBytes(m))
    ensures EntriesOk(m, [], bag)
  {
    SumNone(bag, SBytes(m));
    SumNone(bag, GBytes(m));
    forall a: nat, b: nat
      ensures Sum(bag, Chunk(m, a, b)) == 0
    {
      SumNone(bag, Chunk(m, a, b));
    }
  }

  /** A message not yet known to its receiver agrees with the state it will have there. */
  lemma PlanAgrees(cfg: Config, m: MsgRef, spec: Spec)
    requires cfg.Valid() && ValidSpec(spec) && spec.size > 0
    ensures Agrees(m, Announced(m, spec.size, spec.created, Unscheduled(cfg, spec.size)),
                   multiset(Plan(cfg, m, spec)), multiset{})
  {
    PlanCounts(cfg, m, spec);
    PlanAllFit(cfg, m, spec);
    NothingGranted(m, multiset(Plan(cfg, m, spec)));
    assert SchedEntries(Announced(m, spec.size, spec.created, Unscheduled(cfg, spec.size))) == [];
    PlanOncePerByte(cfg, m, spec);
  }

  lemma PlanOncePerByte(cfg: Config, m: MsgRef, spec: Spec)
    requires cfg.Valid() && ValidSpec(spec)
    ensures OncePerByte(m, Announced(m, spec.size, spec.created, Unscheduled(cfg, spec.size)),
                        multiset(Plan(cfg, m, spec)), multiset{})
  {
    var i := Announced(m, spec.size, spec.created, Unscheduled(cfg, spec.size));
    var bag := multiset(Plan(cfg, m, spec));
    PlanEndToEnd(cfg, m, spec);
    forall b: nat | b < i.size
      ensures Cover(bag, m, b) + Cover(multiset{}, m, b) + (if b >= i.offset then 1 else 0) == 1
    {
      WholePlan(cfg, m, spec, Covers(m, b));
      EndToEndCovers(Plan(cfg, m, spec), m, b, |Sizes(cfg, spec.size)|);
      SumNone(multiset{}, Covers(m, b));
    }
  }

  lemma PlanGreedy(cfg: Config, size: nat)
    requires cfg.Valid()
    ensures Greedy(Sizes(cfg, size), MAX_UNSCHED) || Sizes(cfg, size) == [0]
  {
    if size == 0 {
      assert PktSizes(cfg.req, cfg.unsched, 0) == [0];
    } else {
      PktSizesGreedy(cfg.req, cfg.unsched, size);
    }
  }

  lemma {:induction false} WireAtWithout(prios: seq<nat>, lens: seq<nat>, n: nat, skip: nat, p: nat)
    requires n <= |prios| == |lens| && skip < |lens|
    ensures WireAt(prios, lens, n, -1, p)
         == WireAt(prios, lens, n, skip, p)
            + if skip < n && prios[skip] == p then BytesOnWire(lens[skip], UNSCHED_DATA) else 0
  {
    if n > 0 { WireAtWithout(prios, lens, n - 1, skip, p); }
  }

  /** Whichever unscheduled packet comes first, its table is the wire size of the others. */
  lemma TableOfFirst(cfg: Config, m: MsgRef, spec: Spec, p: Pkt, prio: nat)
    requires cfg.Valid() && ValidSpec(spec) && p in multiset(Plan(cfg, m, spec))
    ensures p.Unsched?
    ensures TableWire(p.hdr.others, prio) == Sum(multiset(Plan(cfg, m, spec)) - multiset{p}, UWire(m, prio))
  {
    var i := PlanHas(cfg, m, spec, p);
    TableOfPlan(cfg, m, spec, i, prio);
    SumTake(multiset(Plan(cfg, m, spec)), p);
    assert Sum(multiset(Plan(cfg, m, spec)), UWire(m, prio))
        == Weigh(UWire(m, prio), p) + Sum(multiset(Plan(cfg, m, spec)) - multiset{p}, UWire(m, prio));
  }

  lemma PlanTable(cfg: Config, m: MsgRef, spec: Spec, i: nat, prio: nat)
    requires cfg.Valid() && ValidSpec(spec) && i < |Sizes(cfg, spec.size)|
    ensures TableWire(PlanPkt(cfg, m, spec, i).hdr.others, prio)
         == WireAt(Prios(cfg, spec.size), Sizes(cfg, spec.size), |Sizes(cfg, spec.size)|, i, prio)
  {
    PktSizesSum(cfg.req, cfg.unsched, spec.size);
    UnschedPriosMonotone(cfg.mode, cfg.cutOffs, spec.size, Sizes(cfg, spec.size));
    PlanGreedy(cfg, spec.size);
    TableIsExact(Prios(cfg, spec.size), Sizes(cfg, spec.size), i, prio);
  }

  lemma TableOfPlan(cfg: Config, m: MsgRef, spec: Spec, i: nat, prio: nat)
    requires cfg.Valid() && ValidSpec(spec) && i < |Sizes(cfg, spec.size)|
    ensures var p := PlanPkt(cfg, m, spec, i);
      Sum(multiset(Plan(cfg, m, spec)), UWire(m, prio)) == TableWire(p.hdr.others, prio) + Weigh(UWire(m, prio), p)
  {
    var sizes, prios := Sizes(cfg, spec.size), Prios(cfg, spec.size);
    PlanTable(cfg, m, spec, i, prio);
    PlanSum(cfg, m, spec, prio);
    WireAtWithout(prios, sizes, |sizes|, i, prio);
    PlanWeigh(cfg, m, spec, i, prio);
  }

  lemma PlanSum(cfg: Config, m: MsgRef, spec: Spec, prio: nat)
    requires cfg.Valid() && ValidSpec(spec)
    ensures Sum(multiset(Plan(cfg, m, spec)), UWire(m, prio))
         == WireAt(Prios(cfg, spec.size), Sizes(cfg, spec.size), |Sizes(cfg, spec.size)|, -1, prio)
  {
    WholePlan(cfg, m, spec, UWire(m, prio));
    PlanCarries(cfg, m, spec);
    ListWireAt(Plan(cfg, m, spec), m, Prios(cfg, spec.size), Sizes(cfg, spec.size), prio, |Sizes(cfg, spec.size)|);
  }

  lemma PlanWeigh(cfg: Config, m: MsgRef, spec: Spec, i: nat, prio: nat)
    requires cfg.Valid() && ValidSpec(spec) && i < |Sizes(cfg, spec.size)|
    ensures Weigh(UWire(m, prio), PlanPkt(cfg, m, spec, i))
         == if Prios(cfg, spec.size)[i] == prio then BytesOnWire(Sizes(cfg, spec.size)[i], UNSCHED_DATA) else 0
  {
    PlanAt(cfg, m, spec, i);
  }
}

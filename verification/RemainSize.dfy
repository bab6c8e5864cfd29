/** Share of packets and of bytes sent while a message has at most a given size left
    (getRemainSizeCdfCbf in WorkloadEstimator.cc): two sorted lists filled by two cursors. */
module RemainSize {
  import opened Arith
  import opened Wire
  import opened Priority
  import opened CutOffs

  // ---- packets of a message ----

  datatype Pkt = Pkt(bytes: nat, wire: nat, granted: bool)

  /** The packet sent once `pkted` bytes of the message are packetized. */
  function NextPkt(req: nat, unsched: nat, size: nat, pkted: nat): Pkt
    requires pkted < size
  {
    var totalUnsched := Min(req + unsched, size);
    if pkted == 0 then
      var pkt := Min(req, size);
      Pkt(pkt, BytesOnWire(pkt, REQUEST), false)
    else if pkted < totalUnsched then
      var pkt := Min(totalUnsched - pkted, MAX_UNSCHED);
      Pkt(pkt, BytesOnWire(pkt, UNSCHED_DATA), false)
    else
      var pkt := Min(MAX_SCHED, size - pkted);
      Pkt(pkt, BytesOnWire(pkt, SCHED_DATA), true)
  }

  function Packets(req: nat, unsched: nat, size: nat, pkted: nat): seq<Pkt>
    requires req > 0 && pkted <= size
    decreases size - pkted
  {
    if pkted == size then []
    else
      var p := NextPkt(req, unsched, size, pkted);
      [p] + Packets(req, unsched, size, pkted + p.bytes)
  }

  function WireSum(pkts: seq<Pkt>): nat { if pkts == [] then 0 else pkts[0].wire + WireSum(pkts[1..]) }

  function ByteSum(pkts: seq<Pkt>): nat { if pkts == [] then 0 else pkts[0].bytes + ByteSum(pkts[1..]) }

  /** On-wire bytes of the grants the message needs. */
  function GrantSum(pkts: seq<Pkt>): nat {
    if pkts == [] then 0 else (if pkts[0].granted then BytesOnWire(0, GRANT) else 0) + GrantSum(pkts[1..])
  }

  predicate PositivePkt(p: Pkt) { p.bytes > 0 && p.wire >= MIN_ETHERNET_PAYLOAD_BYTES + FRAME_OVERHEAD }

  lemma {:induction false} PacketsTile(req: nat, unsched: nat, size: nat, pkted: nat)
    requires req > 0 && pkted <= size
    ensures ByteSum(Packets(req, unsched, size, pkted)) == size - pkted
    ensures forall i :: 0 <= i < |Packets(req, unsched, size, pkted)| ==>
              PositivePkt(Packets(req, unsched, size, pkted)[i])
    decreases size - pkted
  {
    if pkted < size {
      var p := NextPkt(req, unsched, size, pkted);
      PacketsTile(req, unsched, size, pkted + p.bytes);
      assert Packets(req, unsched, size, pkted)[1..] == Packets(req, unsched, size, pkted + p.bytes);
    }
  }

  lemma {:induction false} SumsAppend(pkts: seq<Pkt>, p: Pkt)
    ensures WireSum(pkts + [p]) == WireSum(pkts) + p.wire
    ensures GrantSum(pkts + [p]) == GrantSum(pkts) + if p.granted then BytesOnWire(0, GRANT) else 0
  {
    if pkts == [] {
      assert pkts + [p] == [p];
    } else {
      assert (pkts + [p])[1..] == pkts[1..] + [p];
      SumsAppend(pkts[1..], p);
    }
  }

  /** What `n` bytes take on the wire if there are any. */
  function WireIfAny(n: nat, t: PktType): nat { if n == 0 then 0 else BytesOnWire(n, t) }

  /** On the wire a message is its request, the other unscheduled bytes in as few packets as
      they fit in, and likewise the scheduled bytes. */
  function MessageWire(req: nat, unsched: nat, size: nat): nat {
    var first, totalUnsched := Min(req, size), Min(req + unsched, size);
    WireIfAny(first, REQUEST) + WireIfAny(totalUnsched - first, UNSCHED_DATA)
    + WireIfAny(size - totalUnsched, SCHED_DATA)
  }

  /** One grant for every packet of scheduled bytes. */
  function MessageGrants(req: nat, unsched: nat, size: nat): nat {
    CeilDiv(size - Min(req + unsched, size), MAX_SCHED) * BytesOnWire(0, GRANT)
  }

  lemma OneGrantMore(k: nat)
    ensures (k + 1) * BytesOnWire(0, GRANT) == BytesOnWire(0, GRANT) + k * BytesOnWire(0, GRANT)
  {
  }

  lemma {:induction false} SchedCosts(req: nat, unsched: nat, size: nat, pkted: nat)
    requires req > 0 && Min(req + unsched, size) <= pkted <= size && (size > 0 ==> pkted > 0)
    ensures WireSum(Packets(req, unsched, size, pkted)) == WireIfAny(size - pkted, SCHED_DATA)
    ensures GrantSum(Packets(req, unsched, size, pkted)) == CeilDiv(size - pkted, MAX_SCHED) * BytesOnWire(0, GRANT)
    decreases size - pkted
  {
    DivUp(size - pkted, MAX_SCHED);
    if pkted < size {
      var p := NextPkt(req, unsched, size, pkted);
      SchedCosts(req, unsched, size, pkted + p.bytes);
      OneGrantMore(CeilDiv(size - pkted - p.bytes, MAX_SCHED));
    }
  }

  lemma {:induction false} UnschedCosts(req: nat, unsched: nat, size: nat, pkted: nat)
    requires req > 0 && 0 < pkted <= Min(req + unsched, size)
    ensures var totalUnsched := Min(req + unsched, size);
            WireSum(Packets(req, unsched, size, pkted))
            == WireIfAny(totalUnsched - pkted, UNSCHED_DATA) + WireIfAny(size - totalUnsched, SCHED_DATA)
    ensures GrantSum(Packets(req, unsched, size, pkted)) == MessageGrants(req, unsched, size)
    decreases size - pkted
  {
    if pkted < Min(req + unsched, size) {
      UnschedCosts(req, unsched, size, pkted + NextPkt(req, unsched, size, pkted).bytes);
    } else {
      SchedCosts(req, unsched, size, pkted);
    }
  }

  /** What the packets of a message and the grants it needs take on the wire. */
  lemma MessageCosts(req: nat, unsched: nat, size: nat)
    requires req > 0
    ensures WireSum(Packets(req, unsched, size, 0)) == MessageWire(req, unsched, size)
    ensures GrantSum(Packets(req, unsched, size, 0)) == MessageGrants(req, unsched, size)
  {
    if size == 0 {
      SchedCosts(req, unsched, size, 0);
    } else {
      UnschedCosts(req, unsched, size, Min(req, size));
    }
  }

  /** A packet from byte `start` on: the request carries what `req` allows; any other packet
      is full unless it ends the unscheduled bytes or the message, and only those behind the
      unscheduled bytes are granted. */
  predicate FullOrLast(req: nat, unsched: nat, size: nat, start: nat, p: Pkt) {
    if start == 0 then p.bytes == Min(req, size) && !p.granted && p.wire == BytesOnWire(p.bytes, REQUEST)
    else
      var totalUnsched := Min(req + unsched, size);
      var max, end := if p.granted then MAX_SCHED else MAX_UNSCHED, if p.granted then size else totalUnsched;
      && (p.granted <==> start >= totalUnsched) && p.bytes <= max && start + p.bytes <= end
      && (p.bytes == max || start + p.bytes == end)
      && p.wire == BytesOnWire(p.bytes, if p.granted then SCHED_DATA else UNSCHED_DATA)
  }

  lemma {:induction false} PacketAt(req: nat, unsched: nat, size: nat, pkted: nat, i: nat)
    requires req > 0 && pkted <= size && i < |Packets(req, unsched, size, pkted)|
    ensures var ps := Packets(req, unsched, size, pkted);
            FullOrLast(req, unsched, size, pkted + ByteSum(ps[..i]), ps[i])
    decreases i
  {
    if i > 0 {
      var ps, p := Packets(req, unsched, size, pkted), NextPkt(req, unsched, size, pkted);
      PacketAt(req, unsched, size, pkted + p.bytes, i - 1);
      assert ps[..i][1..] == ps[1..][..i - 1];
    }
  }

  predicate Whole<T(==)>(done: seq<T>, rest: seq<T>, all: seq<T>) { done + rest == all }

  lemma WholeOn<T>(done: seq<T>, x: T, rest: seq<T>, all: seq<T>)
    requires Whole(done, [x] + rest, all)
    ensures Whole(done + [x], rest, all)
  {
    assert (done + [x]) + rest == done + ([x] + rest);
  }

  /** The state of the packetizing loop. */
  predicate SoFar(req: nat, unsched: nat, size: nat, packets: seq<Pkt>, pkted: int, wire: nat, grants: nat)
    requires req > 0
  {
    && 0 <= pkted <= size && Whole(packets, Packets(req, unsched, size, pkted), Packets(req, unsched, size, 0))
    && wire == WireSum(packets) && grants == GrantSum(packets)
  }

  lemma NextPacket(req: nat, unsched: nat, size: nat, packets: seq<Pkt>, pkted: nat, wire: nat, grants: nat)
    requires req > 0 && pkted < size && SoFar(req, unsched, size, packets, pkted, wire, grants)
    ensures var p := NextPkt(req, unsched, size, pkted);
            p.bytes > 0 && SoFar(req, unsched, size, packets + [p], pkted + p.bytes, wire + p.wire,
                                 if p.granted then grants + BytesOnWire(0, GRANT) else grants)
  {
    var p := NextPkt(req, unsched, size, pkted);
    SumsAppend(packets, p);
    WholeOn(packets, p, Packets(req, unsched, size, pkted + p.bytes), Packets(req, unsched, size, 0));
  }

  /** The packetizing loop. */
  method Packetized(req: nat, unsched: nat, size: nat)
    returns (packets: seq<Pkt>, sizeOnWire: nat, allGrantBytes: nat)
    requires req > 0
    ensures packets == Packets(req, unsched, size, 0)
    ensures sizeOnWire == WireSum(packets) == MessageWire(req, unsched, size)
    ensures allGrantBytes == GrantSum(packets) == MessageGrants(req, unsched, size)
  {
    packets, sizeOnWire, allGrantBytes := [], 0, 0;
    var sizeRemain: int := size;
    var pktedSize := 0;
    while sizeRemain != 0
      invariant 0 <= sizeRemain == size - pktedSize
      invariant SoFar(req, unsched, size, packets, pktedSize, sizeOnWire, allGrantBytes)
    {
      var p := NextPkt(req, unsched, size, pktedSize);
      NextPacket(req, unsched, size, packets, pktedSize, sizeOnWire, allGrantBytes);
      if p.granted {
        allGrantBytes := allGrantBytes + BytesOnWire(0, GRANT);
      }
      packets := packets + [p];
      sizeOnWire := sizeOnWire + p.wire;
      sizeRemain := sizeRemain - p.bytes;
      pktedSize := pktedSize + p.bytes;
    }
    MessageCosts(req, unsched, size);
  }

  // ---- what is counted ----

  /** A counted packet: what is left when it is sent, its probability and its share of bytes. */
  datatype Item = Item(remain: nat, prob: real, bytes: real)

  /** The packets counted: those in the first `cap` or the last `boost` bytes on the wire. */
  function Counted(pkts: seq<Pkt>, remain: nat, pktedOnWire: nat, toSendOnWire: nat, cap: nat, boost: nat, prob: real)
    : seq<Item>
    requires ByteSum(pkts) == remain && WireSum(pkts) == toSendOnWire
  {
    if pkts == [] then []
    else
      var p := pkts[0];
      var rest := Counted(pkts[1..], remain - p.bytes, pktedOnWire + p.wire, toSendOnWire - p.wire, cap, boost, prob);
      if pktedOnWire >= cap && toSendOnWire >= boost then rest else [Item(remain, prob, ByteShare(prob, p.wire))] + rest
  }

  /** At least one share of something not negative. */
  lemma ShareAtLeast(prob: real, weight: real)
    requires prob >= 0.0 && weight >= 1.0
    ensures prob * weight >= prob
  {
    var more := weight - 1.0;
    assert prob * more >= 0.0;
    assert prob * weight == prob * more + prob;
  }

  function ByteShare(prob: real, wire: nat): (r: real)
    ensures prob >= 0.0 ==> r >= 0.0 && (wire > 0 ==> r >= prob)
  {
    if prob >= 0.0 && wire > 0 then
      ShareAtLeast(prob, wire as real);
      prob * wire as real
    else
      prob * wire as real
  }

  // ---- exactly which packets are counted ----

  /** Packet `i` is among the first `cap` or the last `boost` bytes on the wire. */
  predicate Kept(pkts: seq<Pkt>, i: nat, before: nat, cap: nat, boost: nat)
    requires i < |pkts|
  {
    before + WireSum(pkts[..i]) < cap || WireSum(pkts[i..]) < boost
  }

  /** What is counted of packets that follow `before` bytes on the wire. */
  function CountedOf(pkts: seq<Pkt>, before: nat, cap: nat, boost: nat, prob: real): seq<Item> {
    Counted(pkts, ByteSum(pkts), before, WireSum(pkts), cap, boost, prob)
  }

  lemma CountedStep(pkts: seq<Pkt>, before: nat, cap: nat, boost: nat, prob: real, x: Item)
    requires pkts != [] && x == Item(ByteSum(pkts), prob, ByteShare(prob, pkts[0].wire))
    ensures var rest := CountedOf(pkts[1..], before + pkts[0].wire, cap, boost, prob);
            CountedOf(pkts, before, cap, boost, prob)
            == if before >= cap && WireSum(pkts) >= boost then rest else [x] + rest
  {
    SumsOff(pkts);
    CountedOn(pkts, ByteSum(pkts), before, WireSum(pkts), cap, boost, prob, x);
  }

  lemma SumsOff(pkts: seq<Pkt>)
    requires pkts != []
    ensures ByteSum(pkts[1..]) == ByteSum(pkts) - pkts[0].bytes && WireSum(pkts[1..]) == WireSum(pkts) - pkts[0].wire
  {
  }

  lemma CountedOn(pkts: seq<Pkt>, remain: nat, before: nat, toSend: nat, cap: nat, boost: nat, prob: real, x: Item)
    requires pkts != [] && ByteSum(pkts) == remain && WireSum(pkts) == toSend
    requires x == Item(remain, prob, ByteShare(prob, pkts[0].wire))
    ensures var p := pkts[0];
            var rest := Counted(pkts[1..], remain - p.bytes, before + p.wire, toSend - p.wire, cap, boost, prob);
            Counted(pkts, remain, before, toSend, cap, boost, prob)
            == if before >= cap && toSend >= boost then rest else [x] + rest
  {
  }

  lemma KeptFirst(pkts: seq<Pkt>, before: nat, cap: nat, boost: nat)
    requires pkts != []
    ensures Kept(pkts, 0, before, cap, boost) <==> !(before >= cap && WireSum(pkts) >= boost)
  {
    assert pkts[0..] == pkts && pkts[..0] == [];
  }

  lemma KeptLater(pkts: seq<Pkt>, i: nat, before: nat, cap: nat, boost: nat)
    requires 0 < i < |pkts|
    ensures Kept(pkts, i, before, cap, boost) <==> Kept(pkts[1..], i - 1, before + pkts[0].wire, cap, boost)
    ensures pkts[i..] == pkts[1..][i - 1..]
  {
    assert pkts[..i][1..] == pkts[1..][..i - 1] && pkts[i..] == pkts[1..][i - 1..];
  }

  /** What is counted under the number of bytes left when packet `i` is sent: the packet's
      probability and its share of the bytes if it is kept, nothing otherwise. */
  lemma {:induction false} CountedAt(pkts: seq<Pkt>, i: nat, before: nat, cap: nat, boost: nat, prob: real)
    requires i < |pkts| && forall k :: 0 <= k < |pkts| ==> pkts[k].bytes > 0
    ensures var items, k := CountedOf(pkts, before, cap, boost, prob), ByteSum(pkts[i..]);
      && ProbAt(items, k) == (if Kept(pkts, i, before, cap, boost) then prob else 0.0)
      && BytesAt(items, k) == if Kept(pkts, i, before, cap, boost) then ByteShare(prob, pkts[i].wire) else 0.0
  {
    var p, t := pkts[0], pkts[1..];
    var rest := CountedOf(t, before + p.wire, cap, boost, prob);
    var x := Item(ByteSum(pkts), prob, ByteShare(prob, p.wire));
    CountedStep(pkts, before, cap, boost, prob, x);
    KeptFirst(pkts, before, cap, boost);
    FrontItem(x, rest, ByteSum(pkts[i..]));
    if i == 0 {
      CountedSmaller(t, before + p.wire, cap, boost, prob);
      NoneAt(rest, ByteSum(pkts));
      assert pkts[0..] == pkts;
    } else {
      CountedAt(t, i - 1, before + p.wire, cap, boost, prob);
      KeptLater(pkts, i, before, cap, boost);
      SuffixSmaller(t, i - 1);
    }
  }

  lemma {:induction false} SuffixSmaller(pkts: seq<Pkt>, i: nat)
    requires i <= |pkts|
    ensures ByteSum(pkts[i..]) <= ByteSum(pkts)
  {
    if i > 0 {
      SuffixSmaller(pkts[1..], i - 1);
      assert pkts[i..] == pkts[1..][i - 1..];
    }
  }

  lemma {:induction false} CountedSmaller(pkts: seq<Pkt>, before: nat, cap: nat, boost: nat, prob: real)
    ensures forall x :: x in CountedOf(pkts, before, cap, boost, prob) ==> x.remain <= ByteSum(pkts)
  {
    if pkts != [] { CountedSmaller(pkts[1..], before + pkts[0].wire, cap, boost, prob); }
  }

  lemma {:induction false} NoneAt(items: seq<Item>, k: nat)
    requires forall x :: x in items ==> x.remain != k
    ensures ProbAt(items, k) == 0.0 == BytesAt(items, k)
  {
    if items != [] { NoneAt(items[..|items| - 1], k); }
  }

  lemma {:induction false} FrontItem(x: Item, items: seq<Item>, k: nat)
    ensures ProbAt([x] + items, k) == (if x.remain == k then x.prob else 0.0) + ProbAt(items, k)
    ensures BytesAt([x] + items, k) == (if x.remain == k then x.bytes else 0.0) + BytesAt(items, k)
  {
    if items == [] {
      assert ([x] + items)[..0] == [] && [x] + items == [x];
    } else {
      FrontItem(x, items[..|items| - 1], k);
      assert ([x] + items)[..|items|] == [x] + items[..|items| - 1];
    }
  }

  lemma ShareIs(prob: real, wire: nat)
    ensures ByteShare(prob, wire) == prob * wire as real
  {
  }

  lemma SharesAdd(prob: real, a: nat, b: nat)
    ensures ByteShare(prob, a + b) == ByteShare(prob, a) + ByteShare(prob, b)
    ensures ByteShare(prob, 0) == 0.0
  {
    var x, y := a as real, b as real;
    assert (a + b) as real == x + y;
    assert prob * (x + y) == prob * x + prob * y;
  }

  lemma BytesOfFront(x: Item, items: seq<Item>)
    ensures BytesAll([x] + items) == x.bytes + BytesAll(items)
  {
    assert [x][..0] == [];
    TotalsAdd([x], items);
  }

  /** A message that is no longer than the cap counts in full. */
  lemma {:induction false} CountedInFull(pkts: seq<Pkt>, before: nat, cap: nat, boost: nat, prob: real)
    requires before + WireSum(pkts) <= cap && forall k :: 0 <= k < |pkts| ==> pkts[k].wire > 0
    ensures BytesAll(CountedOf(pkts, before, cap, boost, prob)) == ByteShare(prob, WireSum(pkts))
  {
    SharesAdd(prob, 0, 0);
    if pkts != [] {
      var p, t := pkts[0], pkts[1..];
      var x := Item(ByteSum(pkts), prob, ByteShare(prob, p.wire));
      CountedInFull(t, before + p.wire, cap, boost, prob);
      CountedStep(pkts, before, cap, boost, prob, x);
      BytesOfFront(x, CountedOf(t, before + p.wire, cap, boost, prob));
      SharesAdd(prob, p.wire, WireSum(t));
    }
  }

  /** Parameters of the estimate. */
  datatype Params = Params(req: nat, unsched: nat, cap: nat, boost: nat)

  function ItemsOf(c: Params, size: nat, prob: real): seq<Item>
    requires c.req > 0
  {
    PacketsTile(c.req, c.unsched, size, 0);
    var pkts := Packets(c.req, c.unsched, size, 0);
    Counted(pkts, size, 0, WireSum(pkts), c.cap, c.boost, prob)
  }

  /** What one message size adds to the estimate: for the bytes left at each packet, its
      probability and that share of the packet's bytes on the wire, unless the packet lies
      behind the first `cap` and before the last `boost` bytes on the wire. */
  lemma ItemsAt(c: Params, size: nat, prob: real, i: nat)
    requires c.req > 0 && i < |Packets(c.req, c.unsched, size, 0)|
    ensures var pkts, items := Packets(c.req, c.unsched, size, 0), ItemsOf(c, size, prob);
            var counted, remain := WireSum(pkts[..i]) < c.cap || WireSum(pkts[i..]) < c.boost, ByteSum(pkts[i..]);
      && ProbAt(items, remain) == (if counted then prob else 0.0)
      && BytesAt(items, remain) == if counted then prob * pkts[i].wire as real else 0.0
  {
    var pkts := Packets(c.req, c.unsched, size, 0);
    PacketsTile(c.req, c.unsched, size, 0);
    CountedAt(pkts, i, 0, c.cap, c.boost, prob);
    ShareIs(prob, pkts[i].wire);
  }

  /** A message that is on the wire no longer than the cap adds all its bytes. */
  lemma ItemsInFull(c: Params, size: nat, prob: real)
    requires c.req > 0 && MessageWire(c.req, c.unsched, size) <= c.cap
    ensures BytesAll(ItemsOf(c, size, prob)) == prob * MessageWire(c.req, c.unsched, size) as real
  {
    var pkts := Packets(c.req, c.unsched, size, 0);
    PacketsTile(c.req, c.unsched, size, 0);
    MessageCosts(c.req, c.unsched, size);
    CountedInFull(pkts, 0, c.cap, c.boost, prob);
    ShareIs(prob, WireSum(pkts));
  }

  /** The probability of one point of a distribution. */
  function ProbOf(cdf: seq<Point>, i: nat): real
    requires i < |cdf|
  {
    cdf[i].prob - if i == 0 then 0.0 else cdf[i - 1].prob
  }

  /** All that is counted of the first `n` message sizes. */
  function AllItems(c: Params, cdf: seq<Point>, n: nat): seq<Item>
    requires c.req > 0 && n <= |cdf|
  {
    if n == 0 then [] else AllItems(c, cdf, n - 1) + ItemsOf(c, cdf[n - 1].size, ProbOf(cdf, n - 1))
  }

  /** On-wire bytes of all grants, by probability. */
  function AllGrants(c: Params, cdf: seq<Point>, n: nat): real
    requires c.req > 0 && n <= |cdf|
  {
    if n == 0 then 0.0
    else AllGrants(c, cdf, n - 1)
         + ByteShare(ProbOf(cdf, n - 1), GrantSum(Packets(c.req, c.unsched, cdf[n - 1].size, 0)))
  }

  function ProbsOf(cdf: seq<Point>, n: nat): real
    requires n <= |cdf|
  {
    if n == 0 then 0.0 else ProbsOf(cdf, n - 1) + ProbOf(cdf, n - 1)
  }

  /** The probabilities of the sizes up to one add up to what the distribution says of it. */
  lemma {:induction false} ProbsAdd(cdf: seq<Point>, n: nat)
    requires 0 < n <= |cdf|
    ensures ProbsOf(cdf, n) == cdf[n - 1].prob
  {
    if n > 1 { ProbsAdd(cdf, n - 1); } else { assert ProbsOf(cdf, 0) == 0.0; }
  }

  /** Where all messages are of one size, grants take what the grants of one message take. */
  lemma OneSize(c: Params, size: nat)
    requires c.req > 0
    ensures var cdf := [Point(size, 1.0)];
      && AllGrants(c, cdf, 1) == MessageGrants(c.req, c.unsched, size) as real
      && AllItems(c, cdf, 1) == ItemsOf(c, size, 1.0)
  {
    var cdf := [Point(size, 1.0)];
    MessageCosts(c.req, c.unsched, size);
    ShareIs(1.0, MessageGrants(c.req, c.unsched, size));
    assert ProbOf(cdf, 0) == 1.0 && AllItems(c, cdf, 0) == [] && AllGrants(c, cdf, 0) == 0.0;
  }

  function ProbAt(items: seq<Item>, k: nat): real {
    if items == [] then 0.0
    else
      var x := items[|items| - 1];
      ProbAt(items[..|items| - 1], k) + if x.remain == k then x.prob else 0.0
  }

  function BytesAt(items: seq<Item>, k: nat): real {
    if items == [] then 0.0
    else
      var x := items[|items| - 1];
      BytesAt(items[..|items| - 1], k) + if x.remain == k then x.bytes else 0.0
  }

  function ProbAll(items: seq<Item>): real {
    if items == [] then 0.0 else ProbAll(items[..|items| - 1]) + items[|items| - 1].prob
  }

  function BytesAll(items: seq<Item>): real {
    if items == [] then 0.0 else BytesAll(items[..|items| - 1]) + items[|items| - 1].bytes
  }

  predicate Mentions(items: seq<Item>, k: nat) { exists i :: 0 <= i < |items| && items[i].remain == k }

  // ---- sorted lists ----

  predicate Ascending(list: seq<Point>) { forall i, j :: 0 <= i < j < |list| ==> list[i].size < list[j].size }

  predicate Aligned(pdf: seq<Point>, pbf: seq<Point>) {
    |pdf| == |pbf| && forall i :: 0 <= i < |pdf| ==> pdf[i].size == pbf[i].size
  }

  predicate HasKey(list: seq<Point>, k: nat) { exists i :: 0 <= i < |list| && list[i].size == k }

  ghost function ValueAt(list: seq<Point>, k: nat): real {
    if HasKey(list, k) then var i :| 0 <= i < |list| && list[i].size == k; list[i].prob else 0.0
  }

  function SumPoints(list: seq<Point>): real {
    if list == [] then 0.0 else SumPoints(list[..|list| - 1]) + list[|list| - 1].prob
  }

  predicate Fair(list: seq<Point>) { forall i :: 0 <= i < |list| ==> list[i].size > 0 && list[i].prob >= 0.0 }

  lemma {:induction false} SumAppend(a: seq<Point>, b: seq<Point>)
    ensures SumPoints(a + b) == SumPoints(a) + SumPoints(b)
  {
    if b == [] {
      assert a + b == a;
    } else {
      SumAppend(a, b[..|b| - 1]);
      assert (a + b)[..|a + b| - 1] == a + b[..|b| - 1];
    }
  }

  lemma ValueIs(list: seq<Point>, i: nat)
    requires Ascending(list) && i < |list|
    ensures HasKey(list, list[i].size) && ValueAt(list, list[i].size) == list[i].prob
  {
    var j :| 0 <= j < |list| && list[j].size == list[i].size && ValueAt(list, list[i].size) == list[j].prob;
  }

  /** A new key at `p`. */
  function Put(list: seq<Point>, p: nat, k: nat, v: real): seq<Point>
    requires p <= |list|
  {
    list[..p] + [Point(k, v)] + list[p..]
  }

  /** More for the key at `p`. */
  function AddAt(list: seq<Point>, p: nat, v: real): seq<Point>
    requires p < |list|
  {
    list[p := Point(list[p].size, list[p].prob + v)]
  }

  ghost predicate SameBut(list: seq<Point>, list': seq<Point>, k: nat, v: real, j: nat) {
    && (HasKey(list', j) <==> HasKey(list, j) || j == k)
    && ValueAt(list', j) == ValueAt(list, j) + if j == k then v else 0.0
  }

  /** `v` more is counted for key `k`. */
  ghost predicate Placed(list: seq<Point>, list': seq<Point>, k: nat, v: real) {
    && Ascending(list') && SumPoints(list') == SumPoints(list) + v
    && (Fair(list) && k > 0 && v >= 0.0 ==> Fair(list'))
    && forall j {:trigger SameBut(list, list', k, v, j)} :: SameBut(list, list', k, v, j)
  }

  /** `p` is where key `k` belongs. */
  predicate BelongsAt(list: seq<Point>, p: nat, k: nat)
    requires p <= |list|
  {
    && (forall i :: 0 <= i < p ==> list[i].size < k)
    && (forall i :: p <= i < |list| ==> list[i].size > k)
  }

  lemma SumOfOne(x: Point)
    ensures SumPoints([x]) == x.prob
  {
    assert [x][..0] == [];
  }

  lemma SumInserted(a: seq<Point>, x: Point, b: seq<Point>, list: seq<Point>)
    requires list == a + [x] + b
    ensures SumPoints(list) == SumPoints(a) + x.prob + SumPoints(b)
  {
    SumAppend(a, [x]);
    SumAppend(a + [x], b);
    SumOfOne(x);
  }

  lemma SumSplit(a: seq<Point>, b: seq<Point>, list: seq<Point>)
    requires list == a + b
    ensures SumPoints(list) == SumPoints(a) + SumPoints(b)
  {
    SumAppend(a, b);
  }

  lemma PutSum(list: seq<Point>, p: nat, k: nat, v: real)
    requires p <= |list|
    ensures SumPoints(Put(list, p, k, v)) == SumPoints(list) + v
  {
    SumSplit(list[..p], list[p..], list);
    SumInserted(list[..p], Point(k, v), list[p..], Put(list, p, k, v));
  }

  lemma PutAscends(list: seq<Point>, p: nat, k: nat, v: real)
    requires Ascending(list) && p <= |list| && BelongsAt(list, p, k)
    ensures Ascending(Put(list, p, k, v))
    ensures Fair(list) && k > 0 && v >= 0.0 ==> Fair(Put(list, p, k, v))
  {
    var r := Put(list, p, k, v);
    forall i | 0 <= i < |r|
      ensures r[i] == if i < p then list[i] else if i == p then Point(k, v) else list[i - 1]
    {
    }
  }

  lemma PutKeys(list: seq<Point>, p: nat, k: nat, v: real, j: nat)
    requires p <= |list|
    ensures HasKey(Put(list, p, k, v), j) <==> HasKey(list, j) || j == k
  {
    var r := Put(list, p, k, v);
    assert r[p] == Point(k, v);
    if i :| 0 <= i < |list| && list[i].size == j {
      assert r[if i < p then i else i + 1] == list[i];
    }
    if i :| 0 <= i < |r| && r[i].size == j && i != p {
      assert list[if i < p then i else i - 1] == r[i];
    }
  }

  lemma PutSame(list: seq<Point>, p: nat, k: nat, v: real, j: nat)
    requires Ascending(list) && p <= |list| && BelongsAt(list, p, k) && Ascending(Put(list, p, k, v))
    ensures SameBut(list, Put(list, p, k, v), k, v, j)
  {
    var r := Put(list, p, k, v);
    PutKeys(list, p, k, v, j);
    assert r[p] == Point(k, v);
    ValueIs(r, p);
    if i :| 0 <= i < |list| && list[i].size == j {
      var i' := if i < p then i else i + 1;
      assert r[i'] == list[i];
      ValueIs(list, i);
      ValueIs(r, i');
    }
  }

  lemma PutPlaced(list: seq<Point>, p: nat, k: nat, v: real)
    requires Ascending(list) && p <= |list| && BelongsAt(list, p, k)
    ensures Placed(list, Put(list, p, k, v), k, v)
  {
    PutAscends(list, p, k, v);
    PutSum(list, p, k, v);
    forall j: nat
      ensures SameBut(list, Put(list, p, k, v), k, v, j)
    {
      PutSame(list, p, k, v, j);
    }
  }

  lemma AddSum(list: seq<Point>, p: nat, v: real)
    requires p < |list|
    ensures SumPoints(AddAt(list, p, v)) == SumPoints(list) + v
  {
    ReplaceOne(list, p, Point(list[p].size, list[p].prob + v), AddAt(list, p, v));
  }

  lemma ReplaceOne(list: seq<Point>, p: nat, y: Point, r: seq<Point>)
    requires p < |list| && r == list[p := y]
    ensures SumPoints(r) == SumPoints(list) - list[p].prob + y.prob
  {
    assert r == list[..p] + [y] + list[p + 1..];
    SumInserted(list[..p], list[p], list[p + 1..], list);
    SumInserted(list[..p], y, list[p + 1..], r);
  }

  lemma AddSame(list: seq<Point>, p: nat, v: real, j: nat)
    requires Ascending(list) && p < |list|
    ensures SameBut(list, AddAt(list, p, v), list[p].size, v, j)
  {
    var r := AddAt(list, p, v);
    if HasKey(list, j) {
      var i :| 0 <= i < |list| && list[i].size == j;
      ValueIs(list, i);
      ValueIs(r, i);
    }
    if HasKey(r, j) {
      var i :| 0 <= i < |r| && r[i].size == j;
      assert list[i].size == j;
    }
  }

  lemma AddPlaced(list: seq<Point>, p: nat, v: real)
    requires Ascending(list) && p < |list|
    ensures Placed(list, AddAt(list, p, v), list[p].size, v)
  {
    AddSum(list, p, v);
    forall j: nat
      ensures SameBut(list, AddAt(list, p, v), list[p].size, v, j)
    {
      AddSame(list, p, v, j);
    }
  }

  // ---- the two cursors ----

  predicate Beyond(list: seq<Point>, it: int, remain: nat) {
    forall i :: 0 <= it <= i < |list| ==> list[i].size > remain
  }

  /** Both cursors go back, at least once unless at the beginning, to an entry of at most
      `remain` bytes. */
  method SeekBack(pdf: seq<Point>, it0: nat, itt0: nat, remain: nat) returns (it: nat, itt: nat)
    requires Ascending(pdf) && it0 == itt0 <= |pdf| && Beyond(pdf, it0, remain)
    ensures it == itt <= it0 && (it0 > 0 ==> it < it0) && Beyond(pdf, it + 1, remain)
    ensures it == 0 || pdf[it].size <= remain
  {
    it, itt := it0, itt0;
    while it != 0
      invariant it == itt <= it0 && Beyond(pdf, it, remain)
    {
      it, itt := it - 1, itt - 1;
      if pdf[it].size <= remain {
        break;
      }
    }
  }

  /** What a placed item leaves: both lists changed at its key, both cursors behind it. */
  ghost predicate ItemPlaced(pdf: seq<Point>, pbf: seq<Point>, x: Item, pdf': seq<Point>, pbf': seq<Point>, it: nat) {
    && Aligned(pdf', pbf') && Placed(pdf, pdf', x.remain, x.prob) && Placed(pbf, pbf', x.remain, x.bytes)
    && it <= |pdf'| && forall i :: it <= i < |pdf'| ==> pdf'[i].size >= x.remain
  }

  lemma InsertPlaced(pdf: seq<Point>, pbf: seq<Point>, p: nat, x: Item)
    requires Ascending(pdf) && Aligned(pdf, pbf) && p <= |pdf| && BelongsAt(pdf, p, x.remain)
    ensures ItemPlaced(pdf, pbf, x, Put(pdf, p, x.remain, x.prob), Put(pbf, p, x.remain, x.bytes), p + 1)
  {
    PutPlaced(pdf, p, x.remain, x.prob);
    PutPlaced(pbf, p, x.remain, x.bytes);
    PutAligned(pdf, pbf, p, x.remain, x.prob, x.bytes);
    PutBeyond(pdf, p, x.remain, x.prob);
  }

  lemma PutAligned(pdf: seq<Point>, pbf: seq<Point>, p: nat, k: nat, u: real, v: real)
    requires Aligned(pdf, pbf) && p <= |pdf|
    ensures Aligned(Put(pdf, p, k, u), Put(pbf, p, k, v))
  {
  }

  lemma PutBeyond(list: seq<Point>, p: nat, k: nat, v: real)
    requires p <= |list| && BelongsAt(list, p, k)
    ensures var r := Put(list, p, k, v); p < |r| && forall i :: p < i < |r| ==> r[i].size >= k
  {
    var r := Put(list, p, k, v);
    forall i | p < i < |r|
      ensures r[i] == list[i - 1]
    {
    }
  }

  lemma AddUpPlaced(pdf: seq<Point>, pbf: seq<Point>, p: nat, x: Item)
    requires Ascending(pdf) && Aligned(pdf, pbf) && p < |pdf| && pdf[p].size == x.remain
    ensures ItemPlaced(pdf, pbf, x, AddAt(pdf, p, x.prob), AddAt(pbf, p, x.bytes), p)
  {
    AddPlaced(pdf, p, x.prob);
    AddPlaced(pbf, p, x.bytes);
  }

  /** The body of the loop over counted packets. */
  method Place(pdf: seq<Point>, pbf: seq<Point>, it0: nat, itt0: nat, x: Item)
    returns (pdf': seq<Point>, pbf': seq<Point>, it: nat, itt: nat)
    requires Ascending(pdf) && Aligned(pdf, pbf) && it0 == itt0 <= |pdf| && Beyond(pdf, it0, x.remain)
    ensures ItemPlaced(pdf, pbf, x, pdf', pbf', it) && itt == it
  {
    it, itt := SeekBack(pdf, it0, itt0, x.remain);
    if it == |pdf| {
      pdf', pbf' := InsertBoth(pdf, pbf, it, itt, x);
      it, itt := it + 1, itt + 1;
    } else if pdf[it].size == x.remain {
      AddUpPlaced(pdf, pbf, it, x);
      pdf', pbf' := AddAt(pdf, it, x.prob), AddAt(pbf, itt, x.bytes);
    } else if pdf[it].size < x.remain {
      it, itt := it + 1, itt + 1;
      pdf', pbf' := InsertBoth(pdf, pbf, it, itt, x);
      it, itt := it + 1, itt + 1;
    } else {
      assert it == 0;
      pdf', pbf' := InsertBoth(pdf, pbf, it, itt, x);
      it, itt := it + 1, itt + 1;
    }
  }

  method InsertBoth(pdf: seq<Point>, pbf: seq<Point>, it: nat, itt: nat, x: Item)
    returns (pdf': seq<Point>, pbf': seq<Point>)
    requires Ascending(pdf) && Aligned(pdf, pbf) && it == itt <= |pdf| && BelongsAt(pdf, it, x.remain)
    ensures ItemPlaced(pdf, pbf, x, pdf', pbf', it + 1)
  {
    InsertPlaced(pdf, pbf, it, x);
    pdf', pbf' := Put(pdf, it, x.remain, x.prob), Put(pbf, itt, x.remain, x.bytes);
  }

  // ---- all counted packets, grouped by what remains ----

  ghost predicate GroupAt(pdf: seq<Point>, pbf: seq<Point>, items: seq<Item>, k: nat) {
    && (HasKey(pdf, k) <==> Mentions(items, k))
    && ValueAt(pdf, k) == ProbAt(items, k) && ValueAt(pbf, k) == BytesAt(items, k)
  }

  /** The lists are the plain sums over the items, grouped by what remains. */
  ghost predicate Grouped(pdf: seq<Point>, pbf: seq<Point>, items: seq<Item>) {
    && Ascending(pdf) && Aligned(pdf, pbf) && Fair(pdf) && Fair(pbf)
    && SumPoints(pdf) == ProbAll(items) && SumPoints(pbf) == BytesAll(items)
    && forall k {:trigger GroupAt(pdf, pbf, items, k)} :: GroupAt(pdf, pbf, items, k)
  }

  /** The lists group the items, and the running totals are theirs. */
  ghost predicate Tallied(pdf: seq<Point>, pbf: seq<Point>, items: seq<Item>, cumPkts: real, cumPktBytes: real) {
    Grouped(pdf, pbf, items) && cumPkts == ProbAll(items) && cumPktBytes == BytesAll(items)
  }

  predicate FairItem(x: Item) { x.remain > 0 && x.bytes >= x.prob >= 0.0 }

  lemma ItemsGrow(items: seq<Item>, x: Item, k: nat)
    ensures ProbAt(items + [x], k) == ProbAt(items, k) + if x.remain == k then x.prob else 0.0
    ensures BytesAt(items + [x], k) == BytesAt(items, k) + if x.remain == k then x.bytes else 0.0
    ensures Mentions(items + [x], k) <==> Mentions(items, k) || x.remain == k
  {
    var more := items + [x];
    assert more[..|items|] == items;
    if Mentions(items, k) {
      var i :| 0 <= i < |items| && items[i].remain == k;
      assert more[i].remain == k;
    }
    assert more[|items|] == x;
  }

  lemma TotalsGrow(items: seq<Item>, x: Item)
    ensures ProbAll(items + [x]) == ProbAll(items) + x.prob && BytesAll(items + [x]) == BytesAll(items) + x.bytes
  {
    assert (items + [x])[..|items|] == items;
  }

  lemma StillGrouped(pdf: seq<Point>, pbf: seq<Point>, items: seq<Item>, x: Item, pdf': seq<Point>, pbf': seq<Point>,
                     it: nat)
    requires Grouped(pdf, pbf, items) && FairItem(x) && ItemPlaced(pdf, pbf, x, pdf', pbf', it)
    ensures Grouped(pdf', pbf', items + [x])
  {
    TotalsGrow(items, x);
    forall k: nat
      ensures GroupAt(pdf', pbf', items + [x], k)
    {
      ItemsGrow(items, x, k);
      assert SameBut(pdf, pdf', x.remain, x.prob, k) && SameBut(pbf, pbf', x.remain, x.bytes, k);
      assert GroupAt(pdf, pbf, items, k);
    }
  }

  /** What is still to be counted makes `items` complete. */
  predicate Ahead(c: Params, prob: real, items: seq<Item>, rest: seq<Pkt>, remain: int, pktedOnWire: nat, toSend: int,
                  all: seq<Item>) {
    && 0 <= remain == ByteSum(rest) && 0 <= toSend == WireSum(rest)
    && items + Counted(rest, remain, pktedOnWire, toSend, c.cap, c.boost, prob) == all
  }

  lemma StillAhead(c: Params, prob: real, items: seq<Item>, p: Pkt, rest: seq<Pkt>, remain: nat, pktedOnWire: nat,
                   toSend: nat, all: seq<Item>)
    requires Ahead(c, prob, items, [p] + rest, remain, pktedOnWire, toSend, all)
    ensures Ahead(c, prob, if pktedOnWire >= c.cap && toSend >= c.boost then items
                           else items + [Item(remain, prob, ByteShare(prob, p.wire))],
                  rest, remain - p.bytes, pktedOnWire + p.wire, toSend - p.wire, all)
  {
    assert ([p] + rest)[1..] == rest;
    var later := Counted(rest, remain - p.bytes, pktedOnWire + p.wire, toSend - p.wire, c.cap, c.boost, prob);
    var x := Item(remain, prob, ByteShare(prob, p.wire));
    assert (items + [x]) + later == items + ([x] + later);
  }

  /** An item placed where the cursors stand. */
  method PlaceNext(pdf0: seq<Point>, pbf0: seq<Point>, it0: nat, itt0: nat, remain: nat, prob: real, bytes: real,
                   ghost items: seq<Item>, ghost pkts: real, ghost pktBytes: real)
    returns (pdf: seq<Point>, pbf: seq<Point>, it: nat, itt: nat)
    requires Tallied(pdf0, pbf0, items, pkts, pktBytes) && it0 == itt0 <= |pdf0| && Beyond(pdf0, it0, remain)
    requires FairItem(Item(remain, prob, bytes))
    ensures Tallied(pdf, pbf, items + [Item(remain, prob, bytes)], pkts + prob, pktBytes + bytes)
    ensures it == itt <= |pdf| && forall i :: it <= i < |pdf| ==> pdf[i].size >= remain
  {
    TotalsGrow(items, Item(remain, prob, bytes));
    var x := Item(remain, prob, bytes);
    pdf, pbf, it, itt := Place(pdf0, pbf0, it0, itt0, x);
    StillGrouped(pdf0, pbf0, items, x, pdf, pbf, it);
  }

  /** A packet is placed if it counts. */
  method PlaceCounted(c: Params, p: Pkt, remain: nat, prob: real, pktedOnWire: nat, toSend: nat, pdf0: seq<Point>,
                      pbf0: seq<Point>, it0: nat, itt0: nat, cumPkts0: real, cumPktBytes0: real,
                      ghost items0: seq<Item>)
    returns (pdf: seq<Point>, pbf: seq<Point>, it: nat, itt: nat, cumPkts: real, cumPktBytes: real,
             ghost items: seq<Item>)
    requires PositivePkt(p) && p.bytes <= remain && prob >= 0.0
    requires Tallied(pdf0, pbf0, items0, cumPkts0, cumPktBytes0) && it0 == itt0 <= |pdf0| && Beyond(pdf0, it0, remain)
    ensures items == if pktedOnWire >= c.cap && toSend >= c.boost then items0
                     else items0 + [Item(remain, prob, ByteShare(prob, p.wire))]
    ensures Tallied(pdf, pbf, items, cumPkts, cumPktBytes)
    ensures it == itt <= |pdf| && Beyond(pdf, it, remain - p.bytes)
  {
    pdf, pbf, it, itt, cumPkts, cumPktBytes, items := pdf0, pbf0, it0, itt0, cumPkts0, cumPktBytes0, items0;
    if pktedOnWire < c.cap || toSend < c.boost {
      var bytes := ByteShare(prob, p.wire);
      pdf, pbf, it, itt := PlaceNext(pdf, pbf, it, itt, remain, prob, bytes, items, cumPkts, cumPktBytes);
      items := items + [Item(remain, prob, bytes)];
      cumPkts := cumPkts + prob;
      cumPktBytes := cumPktBytes + bytes;
    }
  }

  lemma NextAt(packets: seq<Pkt>, n: nat)
    requires n < |packets|
    ensures packets[n..] == [packets[n]] + packets[n + 1..]
  {
  }

  /** One message: its counted packets are placed from the largest remaining size down. */
  method AddMessage(c: Params, pdf0: seq<Point>, pbf0: seq<Point>, size: nat, prob: real, packets: seq<Pkt>,
                    sizeOnWire: nat, cumPkts0: real, cumPktBytes0: real, ghost items0: seq<Item>)
    returns (pdf: seq<Point>, pbf: seq<Point>, cumPkts: real, cumPktBytes: real)
    requires c.req > 0 && prob >= 0.0 && Tallied(pdf0, pbf0, items0, cumPkts0, cumPktBytes0)
    requires packets == Packets(c.req, c.unsched, size, 0) && sizeOnWire == WireSum(packets)
    ensures Tallied(pdf, pbf, items0 + ItemsOf(c, size, prob), cumPkts, cumPktBytes)
  {
    PacketsTile(c.req, c.unsched, size, 0);
    pdf, pbf, cumPkts, cumPktBytes := pdf0, pbf0, cumPkts0, cumPktBytes0;
    var it, itt := |pdf|, |pbf|;
    var sizeRemain: int, toSendOnWire: int, pktedOnWire: nat := size, sizeOnWire, 0;
    ghost var items, all := items0, items0 + ItemsOf(c, size, prob);
    assert packets[0..] == packets;
    for n := 0 to |packets|
      invariant Ahead(c, prob, items, packets[n..], sizeRemain, pktedOnWire, toSendOnWire, all)
      invariant Tallied(pdf, pbf, items, cumPkts, cumPktBytes)
      invariant it == itt && 0 <= it <= |pdf| && Beyond(pdf, it, sizeRemain)
    {
      var p := packets[n];
      NextAt(packets, n);
      assert PositivePkt(p);
      StillAhead(c, prob, items, p, packets[n + 1..], sizeRemain, pktedOnWire, toSendOnWire, all);
      pdf, pbf, it, itt, cumPkts, cumPktBytes, items :=
        PlaceCounted(c, p, sizeRemain, prob, pktedOnWire, toSendOnWire, pdf, pbf, it, itt, cumPkts, cumPktBytes, items);
      pktedOnWire := pktedOnWire + p.wire;
      toSendOnWire := toSendOnWire - p.wire;
      sizeRemain := sizeRemain - p.bytes;
    }
    assert items == all;
  }

  // ---- shares up to a size ----

  function ProbUpTo(items: seq<Item>, k: nat): real {
    if items == [] then 0.0
    else
      var x := items[|items| - 1];
      ProbUpTo(items[..|items| - 1], k) + if x.remain <= k then x.prob else 0.0
  }

  function BytesUpTo(items: seq<Item>, k: nat): real {
    if items == [] then 0.0
    else
      var x := items[|items| - 1];
      BytesUpTo(items[..|items| - 1], k) + if x.remain <= k then x.bytes else 0.0
  }

  predicate NoneBetween(items: seq<Item>, a: int, b: int) {
    forall i :: 0 <= i < |items| ==> !(a < items[i].remain < b)
  }

  lemma {:induction false} UpToNext(items: seq<Item>, a: nat, b: nat)
    requires a < b && NoneBetween(items, a, b)
    ensures ProbUpTo(items, b) == ProbUpTo(items, a) + ProbAt(items, b)
    ensures BytesUpTo(items, b) == BytesUpTo(items, a) + BytesAt(items, b)
  {
    if items != [] { UpToNext(items[..|items| - 1], a, b); }
  }

  lemma {:induction false} UpToNothing(items: seq<Item>, k: nat)
    requires NoneBetween(items, -1, k + 1)
    ensures ProbUpTo(items, k) == 0.0 && BytesUpTo(items, k) == 0.0
  {
    if items != [] { UpToNothing(items[..|items| - 1], k); }
  }

  lemma {:induction false} UpToAll(items: seq<Item>, k: nat)
    requires forall i :: 0 <= i < |items| ==> items[i].remain <= k
    ensures ProbUpTo(items, k) == ProbAll(items) && BytesUpTo(items, k) == BytesAll(items)
  {
    if items != [] { UpToAll(items[..|items| - 1], k); }
  }

  lemma GroupedGap(pdf: seq<Point>, pbf: seq<Point>, items: seq<Item>, a: int, i: nat)
    requires Grouped(pdf, pbf, items) && i < |pdf|
    requires if i == 0 then a == -1 else a == pdf[i - 1].size
    ensures NoneBetween(items, a, pdf[i].size)
  {
    forall n | 0 <= n < |items|
      ensures !(a < items[n].remain < pdf[i].size)
    {
      assert Mentions(items, items[n].remain);
      assert GroupAt(pdf, pbf, items, items[n].remain);
      var j :| 0 <= j < |pdf| && pdf[j].size == items[n].remain;
    }
  }

  /** Summing the lists in order gives what is counted up to each size. */
  lemma {:induction false} PrefixIsUpTo(pdf: seq<Point>, pbf: seq<Point>, items: seq<Item>, i: nat)
    requires Grouped(pdf, pbf, items) && i < |pdf|
    ensures SumPoints(pdf[..i + 1]) == ProbUpTo(items, pdf[i].size)
    ensures SumPoints(pbf[..i + 1]) == BytesUpTo(items, pdf[i].size)
  {
    assert pdf[..i + 1][..i] == pdf[..i] && pbf[..i + 1][..i] == pbf[..i];
    assert GroupAt(pdf, pbf, items, pdf[i].size);
    ValueIs(pdf, i);
    ValueIs(pbf, i);
    if i == 0 {
      GroupedGap(pdf, pbf, items, -1, 0);
      UpToNothing(items, pdf[0].size - 1);
      UpToNext(items, pdf[0].size - 1, pdf[0].size);
    } else {
      PrefixIsUpTo(pdf, pbf, items, i - 1);
      GroupedGap(pdf, pbf, items, pdf[i - 1].size, i);
      UpToNext(items, pdf[i - 1].size, pdf[i].size);
    }
  }

  // ---- the result ----

  /** Entry `i` holds the share counted up to its size. */
  ghost predicate CdfEntry(cdf: seq<Point>, items: seq<Item>, i: nat)
    requires i < |cdf| && ProbAll(items) > 0.0
  {
    cdf[i].prob == ProbUpTo(items, cdf[i].size) / ProbAll(items)
  }

  ghost predicate CbfEntry(cbf: seq<Point>, items: seq<Item>, grants: real, i: nat)
    requires i < |cbf| && BytesAll(items) + grants > 0.0
  {
    cbf[i].prob == grants / (BytesAll(items) + grants) + BytesUpTo(items, cbf[i].size) / (BytesAll(items) + grants)
  }

  /** The final loop. */
  method Accumulated(pdf: seq<Point>, pbf: seq<Point>, cumPkts: real, cumPktBytes: real, cumsumBytes0: real,
                     ghost items: seq<Item>)
    returns (cdf: seq<Point>, cbf: seq<Point>)
    requires Grouped(pdf, pbf, items) && cumPkts > 0.0 && cumPktBytes > 0.0
    ensures |cdf| == |cbf| == |pdf|
    ensures forall i :: 0 <= i < |pdf| ==>
              cdf[i] == Point(pdf[i].size, ProbUpTo(items, pdf[i].size) / cumPkts)
    ensures forall i :: 0 <= i < |pdf| ==>
              cbf[i] == Point(pdf[i].size, cumsumBytes0 + BytesUpTo(items, pdf[i].size) / cumPktBytes)
  {
    var cumsumPkts, cumsumBytes := 0.0, cumsumBytes0;
    cdf, cbf := [], [];
    var prevRemSize := 0;
    for n := 0 to |pdf|
      invariant |cdf| == |cbf| == n
      invariant cumsumPkts == SumPoints(pdf[..n]) / cumPkts
      invariant cumsumBytes == cumsumBytes0 + SumPoints(pbf[..n]) / cumPktBytes
      invariant prevRemSize == if n == 0 then 0 else pdf[n - 1].size
      invariant forall i :: 0 <= i < n ==> cdf[i] == Point(pdf[i].size, ProbUpTo(items, pdf[i].size) / cumPkts)
      invariant forall i :: 0 <= i < n ==>
                  cbf[i] == Point(pdf[i].size, cumsumBytes0 + BytesUpTo(items, pdf[i].size) / cumPktBytes)
    {
      assert prevRemSize < pdf[n].size && pbf[n].size == pdf[n].size;
      prevRemSize := pdf[n].size;
      PrefixIsUpTo(pdf, pbf, items, n);
      NextSum(pdf, n, cumPkts);
      NextSum(pbf, n, cumPktBytes);
      cumsumPkts := cumsumPkts + pdf[n].prob / cumPkts;
      cdf := cdf + [Point(pdf[n].size, cumsumPkts)];
      cumsumBytes := cumsumBytes + pbf[n].prob / cumPktBytes;
      cbf := cbf + [Point(pbf[n].size, cumsumBytes)];
    }
  }

  lemma NextSum(list: seq<Point>, n: nat, total: real)
    requires n < |list| && total > 0.0
    ensures SumPoints(list[..n + 1]) / total == SumPoints(list[..n]) / total + list[n].prob / total
  {
    assert list[..n + 1][..n] == list[..n];
    Quotients(SumPoints(list[..n]), list[n].prob, total);
  }

  lemma Quotients(a: real, b: real, total: real)
    requires total > 0.0
    ensures (a + b) / total == a / total + b / total
  {
  }

  lemma {:induction false} ProbNonNegative(items: seq<Item>, k: nat)
    requires forall i :: 0 <= i < |items| ==> FairItem(items[i])
    ensures ProbUpTo(items, k) >= 0.0
    ensures BytesAll(items) >= ProbAll(items) >= 0.0
  {
    if items != [] { ProbNonNegative(items[..|items| - 1], k); }
  }

  lemma {:induction false} UpToGrows(items: seq<Item>, a: nat, b: nat)
    requires a <= b && forall i :: 0 <= i < |items| ==> FairItem(items[i])
    ensures ProbUpTo(items, a) <= ProbUpTo(items, b) <= ProbAll(items)
    ensures BytesUpTo(items, a) <= BytesUpTo(items, b) <= BytesAll(items)
  {
    if items != [] { UpToGrows(items[..|items| - 1], a, b); }
  }

  /** Probabilities do not fall, and start at or above zero. */
  predicate Rising(cdf: seq<Point>) {
    && (forall i :: 0 <= i < |cdf| ==> cdf[i].prob >= 0.0)
    && (forall i, j :: 0 <= i < j < |cdf| ==> cdf[i].prob <= cdf[j].prob)
  }

  lemma {:induction false} CountedFair(pkts: seq<Pkt>, remain: nat, pktedOnWire: nat, toSend: nat, c: Params,
                                       prob: real)
    requires ByteSum(pkts) == remain && WireSum(pkts) == toSend && prob >= 0.0
    requires forall i :: 0 <= i < |pkts| ==> PositivePkt(pkts[i])
    ensures forall x :: x in Counted(pkts, remain, pktedOnWire, toSend, c.cap, c.boost, prob) ==> FairItem(x)
  {
    if pkts != [] {
      var p := pkts[0];
      assert PositivePkt(p);
      CountedFair(pkts[1..], remain - p.bytes, pktedOnWire + p.wire, toSend - p.wire, c, prob);
    }
  }

  lemma {:induction false} AllFair(c: Params, cdf: seq<Point>, n: nat)
    requires c.req > 0 && n <= |cdf| && Rising(cdf)
    ensures forall x :: x in AllItems(c, cdf, n) ==> FairItem(x)
    ensures AllGrants(c, cdf, n) >= 0.0
  {
    if n > 0 {
      AllFair(c, cdf, n - 1);
      var size, prob := cdf[n - 1].size, ProbOf(cdf, n - 1);
      PacketsTile(c.req, c.unsched, size, 0);
      CountedFair(Packets(c.req, c.unsched, size, 0), size, 0, WireSum(Packets(c.req, c.unsched, size, 0)), c, prob);
    }
  }

  lemma {:induction false} TotalsAdd(a: seq<Item>, b: seq<Item>)
    ensures ProbAll(a + b) == ProbAll(a) + ProbAll(b) && BytesAll(a + b) == BytesAll(a) + BytesAll(b)
  {
    if b == [] {
      assert a + b == a;
    } else {
      TotalsAdd(a, b[..|b| - 1]);
      assert (a + b)[..|a + b| - 1] == a + b[..|b| - 1];
    }
  }

  /** On-wire size of the last packet of a message. */
  function LastWire(c: Params, size: nat): nat
    requires c.req > 0 && size > 0
  {
    var pkts := Packets(c.req, c.unsched, size, 0);
    pkts[|pkts| - 1].wire
  }

  /** Some packet of a message of this size is counted: with a positive cap the first one,
      without a cap the last one if it is smaller than the boost. */
  predicate SizeCounts(c: Params, size: nat)
    requires c.req > 0
  {
    size > 0 && (c.cap > 0 || LastWire(c, size) < c.boost)
  }

  /** Some size of positive probability counts. */
  predicate CountsSomething(c: Params, cdf: seq<Point>)
    requires c.req > 0
  {
    exists i :: 0 <= i < |cdf| && ProbOf(cdf, i) > 0.0 && SizeCounts(c, cdf[i].size)
  }

  /** What is still to be sent is least at the last packet. */
  lemma {:induction false} UncappedCounts(pkts: seq<Pkt>, remain: nat, pktedOnWire: nat, toSend: nat, boost: nat,
                                          prob: real)
    requires ByteSum(pkts) == remain && WireSum(pkts) == toSend && pkts != []
    ensures pkts[|pkts| - 1].wire <= toSend
    ensures Counted(pkts, remain, pktedOnWire, toSend, 0, boost, prob) == [] <==> pkts[|pkts| - 1].wire >= boost
  {
    var p := pkts[0];
    if |pkts| == 1 {
      assert pkts[1..] == [];
    } else {
      UncappedCounts(pkts[1..], remain - p.bytes, pktedOnWire + p.wire, toSend - p.wire, boost, prob);
    }
  }

  lemma {:induction false} CountedProb(pkts: seq<Pkt>, remain: nat, pktedOnWire: nat, toSend: nat, c: Params,
                                       prob: real)
    requires ByteSum(pkts) == remain && WireSum(pkts) == toSend
    ensures forall x :: x in Counted(pkts, remain, pktedOnWire, toSend, c.cap, c.boost, prob) ==>
              x.prob == prob && x.remain <= remain
  {
    if pkts != [] {
      CountedProb(pkts[1..], remain - pkts[0].bytes, pktedOnWire + pkts[0].wire, toSend - pkts[0].wire, c, prob);
    }
  }

  lemma {:induction false} SameProb(items: seq<Item>, prob: real)
    requires prob >= 0.0 && forall x :: x in items ==> x.prob == prob
    ensures ProbAll(items) >= 0.0 && (ProbAll(items) > 0.0 <==> prob > 0.0 && items != [])
  {
    if items != [] {
      assert items[|items| - 1] in items;
      SameProb(items[..|items| - 1], prob);
    }
  }

  lemma SizeCounted(c: Params, size: nat, prob: real)
    requires c.req > 0 && prob >= 0.0
    ensures ItemsOf(c, size, prob) == [] <==> !SizeCounts(c, size)
    ensures ProbAll(ItemsOf(c, size, prob)) >= 0.0
    ensures ProbAll(ItemsOf(c, size, prob)) > 0.0 <==> prob > 0.0 && SizeCounts(c, size)
    ensures forall x :: x in ItemsOf(c, size, prob) ==> x.remain <= size
  {
    PacketsTile(c.req, c.unsched, size, 0);
    var pkts := Packets(c.req, c.unsched, size, 0);
    CountedProb(pkts, size, 0, WireSum(pkts), c, prob);
    SameProb(ItemsOf(c, size, prob), prob);
    if size > 0 && c.cap == 0 {
      UncappedCounts(pkts, size, 0, WireSum(pkts), c.boost, prob);
    }
  }

  lemma {:induction false} CountedUpTo(c: Params, cdf: seq<Point>, n: nat)
    requires c.req > 0 && n <= |cdf| && Rising(cdf)
    ensures ProbAll(AllItems(c, cdf, n)) >= 0.0
    ensures ProbAll(AllItems(c, cdf, n)) > 0.0
       <==> exists i :: 0 <= i < n && ProbOf(cdf, i) > 0.0 && SizeCounts(c, cdf[i].size)
    ensures AllItems(c, cdf, n) == [] <==> forall i :: 0 <= i < n ==> !SizeCounts(c, cdf[i].size)
  {
    if n > 0 {
      CountedUpTo(c, cdf, n - 1);
      var size, prob := cdf[n - 1].size, ProbOf(cdf, n - 1);
      SizeCounted(c, size, prob);
      TotalsAdd(AllItems(c, cdf, n - 1), ItemsOf(c, size, prob));
      SomeBelow(c, cdf, n);
    }
  }

  lemma SomeBelow(c: Params, cdf: seq<Point>, n: nat)
    requires c.req > 0 && 0 < n <= |cdf|
    ensures (exists i :: 0 <= i < n && ProbOf(cdf, i) > 0.0 && SizeCounts(c, cdf[i].size))
       <==> (exists i :: 0 <= i < n - 1 && ProbOf(cdf, i) > 0.0 && SizeCounts(c, cdf[i].size))
            || (ProbOf(cdf, n - 1) > 0.0 && SizeCounts(c, cdf[n - 1].size))
  {
  }

  /** The counted packets have a positive probability exactly when some size of positive
      probability counts, and there are none exactly when no size counts. */
  lemma SomethingCounted(c: Params, cdf: seq<Point>)
    requires c.req > 0 && Rising(cdf)
    ensures ProbAll(AllItems(c, cdf, |cdf|)) > 0.0 <==> CountsSomething(c, cdf)
    ensures AllItems(c, cdf, |cdf|) == [] <==> NoSizeCounts(c, cdf)
  {
    CountedUpTo(c, cdf, |cdf|);
  }

  /** Without a cap, and with a boost no larger than the smallest frame, nothing is counted,
      whatever the distribution. */
  lemma NothingCounted(c: Params, cdf: seq<Point>)
    requires c.req > 0 && c.cap == 0 && c.boost <= MIN_ETHERNET_PAYLOAD_BYTES + FRAME_OVERHEAD && Rising(cdf)
    ensures AllItems(c, cdf, |cdf|) == []
  {
    SomethingCounted(c, cdf);
    forall i | 0 <= i < |cdf|
      ensures !SizeCounts(c, cdf[i].size)
    {
      if cdf[i].size > 0 { SmallestFrame(c, cdf[i].size); }
    }
  }

  lemma SmallestFrame(c: Params, size: nat)
    requires c.req > 0 && size > 0
    ensures LastWire(c, size) >= MIN_ETHERNET_PAYLOAD_BYTES + FRAME_OVERHEAD
  {
    PacketsTile(c.req, c.unsched, size, 0);
    var pkts := Packets(c.req, c.unsched, size, 0);
    assert PositivePkt(pkts[|pkts| - 1]);
  }

  // ---- the estimator ----

  /** Shares by size: sizes strictly rise, shares do not fall and end at exactly one. */
  predicate Complete(list: seq<Point>) {
    && list != [] && Ascending(list) && Rising(list) && list[|list| - 1].prob == 1.0
  }

  /** The list holds, for each size at which a packet is counted, the share of packets
      sent with at most that much left. */
  ghost predicate Shares(list: seq<Point>, items: seq<Item>) {
    && ProbAll(items) > 0.0
    && (forall k :: HasKey(list, k) <==> Mentions(items, k))
    && forall i :: 0 <= i < |list| ==> CdfEntry(list, items, i)
  }

  /** The same of bytes; grants count as bytes of size zero. */
  ghost predicate ByteShares(list: seq<Point>, items: seq<Item>, grants: real) {
    && BytesAll(items) + grants > 0.0
    && forall i :: 0 <= i < |list| ==> CbfEntry(list, items, grants, i)
  }

  /** The body of the loop over the distribution. */
  method AddSize(c: Params, cdf: seq<Point>, n: nat, prob: real, pdf0: seq<Point>, pbf0: seq<Point>,
                 cumPkts0: real, cumPktBytes0: real)
    returns (pdf: seq<Point>, pbf: seq<Point>, cumPkts: real, cumPktBytes: real, allGrantBytes: nat)
    requires c.req > 0 && n < |cdf| && prob == ProbOf(cdf, n) >= 0.0
    requires Tallied(pdf0, pbf0, AllItems(c, cdf, n), cumPkts0, cumPktBytes0)
    ensures Tallied(pdf, pbf, AllItems(c, cdf, n + 1), cumPkts, cumPktBytes)
    ensures allGrantBytes == GrantSum(Packets(c.req, c.unsched, cdf[n].size, 0))
  {
    var packets, sizeOnWire;
    packets, sizeOnWire, allGrantBytes := Packetized(c.req, c.unsched, cdf[n].size);
    pdf, pbf, cumPkts, cumPktBytes :=
      AddMessage(c, pdf0, pbf0, cdf[n].size, prob, packets, sizeOnWire, cumPkts0, cumPktBytes0, AllItems(c, cdf, n));
  }

  /** The loop over the distribution. */
  method GroupedItems(c: Params, cdf: seq<Point>)
    returns (pdf: seq<Point>, pbf: seq<Point>, cumPkts: real, cumPktBytes: real, cumGrantBytes: real)
    requires c.req > 0 && Rising(cdf)
    ensures Tallied(pdf, pbf, AllItems(c, cdf, |cdf|), cumPkts, cumPktBytes)
    ensures cumGrantBytes == AllGrants(c, cdf, |cdf|)
  {
    pdf, pbf, cumPkts, cumPktBytes, cumGrantBytes := [], [], 0.0, 0.0, 0.0;
    var prevProb := 0.0;
    ghost var items: seq<Item> := [];
    NothingGrouped();
    for n := 0 to |cdf|
      invariant prevProb == if n == 0 then 0.0 else cdf[n - 1].prob
      invariant items == AllItems(c, cdf, n) && Tallied(pdf, pbf, items, cumPkts, cumPktBytes)
      invariant cumGrantBytes == AllGrants(c, cdf, n)
    {
      var prob := cdf[n].prob - prevProb;
      prevProb := cdf[n].prob;
      var allGrantBytes;
      pdf, pbf, cumPkts, cumPktBytes, allGrantBytes := AddSize(c, cdf, n, prob, pdf, pbf, cumPkts, cumPktBytes);
      cumGrantBytes := cumGrantBytes + ByteShare(prob, allGrantBytes);
      items := AllItems(c, cdf, n + 1);
    }
  }

  lemma NothingGrouped()
    ensures Tallied([], [], [], 0.0, 0.0)
  {
    forall k: nat
      ensures GroupAt([], [], [], k)
    {
    }
  }

  lemma QuotientGrows(a: real, b: real, total: real)
    requires total > 0.0 && 0.0 <= a <= b <= total
    ensures 0.0 <= a / total <= b / total <= 1.0 && (b == total ==> b / total == 1.0)
  {
    Quotients(a, b - a, total);
    Quotients(b, total - b, total);
    assert (b - a) / total >= 0.0 && a / total >= 0.0 && (total - b) / total >= 0.0;
  }

  /** Every item is at most the last key. */
  lemma LastIsAll(pdf: seq<Point>, pbf: seq<Point>, items: seq<Item>)
    requires Grouped(pdf, pbf, items) && ProbAll(items) > 0.0
    ensures pdf != []
    ensures ProbUpTo(items, pdf[|pdf| - 1].size) == ProbAll(items)
    ensures BytesUpTo(items, pdf[|pdf| - 1].size) == BytesAll(items)
  {
    assert Mentions(items, items[0].remain) && GroupAt(pdf, pbf, items, items[0].remain);
    forall n | 0 <= n < |items|
      ensures items[n].remain <= pdf[|pdf| - 1].size
    {
      assert Mentions(items, items[n].remain) && GroupAt(pdf, pbf, items, items[n].remain);
      var j :| 0 <= j < |pdf| && pdf[j].size == items[n].remain;
    }
    UpToAll(items, pdf[|pdf| - 1].size);
  }

  /** What the final loop computes of packets is complete. */
  lemma CdfComplete(pdf: seq<Point>, pbf: seq<Point>, items: seq<Item>, cdf: seq<Point>)
    requires Grouped(pdf, pbf, items) && ProbAll(items) > 0.0 && (forall x :: x in items ==> FairItem(x))
    requires |cdf| == |pdf|
    requires forall i :: 0 <= i < |pdf| ==> cdf[i] == Point(pdf[i].size, ProbUpTo(items, pdf[i].size) / ProbAll(items))
    ensures Complete(cdf) && Shares(cdf, items)
  {
    LastIsAll(pdf, pbf, items);
    var last := |pdf| - 1;
    forall i, j | 0 <= i <= j < |cdf|
      ensures 0.0 <= cdf[i].prob <= cdf[j].prob && (j == last ==> cdf[j].prob == 1.0)
    {
      ProbNonNegative(items, pdf[i].size);
      UpToGrows(items, pdf[i].size, pdf[j].size);
      QuotientGrows(ProbUpTo(items, pdf[i].size), ProbUpTo(items, pdf[j].size), ProbAll(items));
    }
    forall k: nat
      ensures HasKey(cdf, k) <==> Mentions(items, k)
    {
      SameKeys(cdf, pdf, k);
      assert GroupAt(pdf, pbf, items, k);
    }
  }

  lemma SameKeys(a: seq<Point>, b: seq<Point>, k: nat)
    requires Aligned(a, b)
    ensures HasKey(a, k) <==> HasKey(b, k)
  {
    if HasKey(a, k) {
      var i :| 0 <= i < |a| && a[i].size == k;
      assert b[i].size == k;
    }
    if HasKey(b, k) {
      var i :| 0 <= i < |b| && b[i].size == k;
      assert a[i].size == k;
    }
  }

  lemma {:induction false} BytesNonNegative(items: seq<Item>, k: nat)
    requires forall x :: x in items ==> FairItem(x)
    ensures BytesUpTo(items, k) >= 0.0
  {
    if items != [] {
      assert FairItem(items[|items| - 1]);
      BytesNonNegative(items[..|items| - 1], k);
    }
  }

  /** Shares of `b + grants` as the sum of two quotients. */
  lemma ByteQuotients(grants: real, a: real, b: real, all: real)
    requires grants >= 0.0 && 0.0 <= a <= b <= all && grants + all > 0.0
    ensures var total := all + grants;
            0.0 <= grants / total + a / total <= grants / total + b / total
            && (b == all ==> grants / total + b / total == 1.0)
  {
    var total := all + grants;
    Quotients(grants, a, total);
    Quotients(grants, b, total);
    QuotientGrows(grants + a, grants + b, total);
  }

  lemma CbfWithGrants(items: seq<Item>, grants: real, start: real, cbf: seq<Point>)
    requires forall x :: x in items ==> FairItem(x)
    requires grants >= 0.0 && BytesAll(items) > 0.0 && start == grants / (BytesAll(items) + grants)
    requires Complete(cbf) && ByteShares(cbf, items, grants)
    requires forall i :: 0 <= i < |cbf| ==> cbf[i].size > 0 && cbf[i].prob >= start
    ensures Complete([Point(0, start)] + cbf) && ByteShares([Point(0, start)] + cbf, items, grants)
  {
    QuotientGrows(0.0, grants, BytesAll(items) + grants);
    forall i | 0 <= i < |items|
      ensures items[i].remain > 0
    {
      assert FairItem(items[i]);
    }
    UpToNothing(items, 0);
    var r := [Point(0, start)] + cbf;
    forall i | 0 <= i < |r|
      ensures CbfEntry(r, items, grants, i)
    {
      if i > 0 {
        assert r[i] == cbf[i - 1] && CbfEntry(cbf, items, grants, i - 1);
      }
    }
  }

  /** What the final loop computes of bytes is complete. */
  lemma CbfComplete(pdf: seq<Point>, pbf: seq<Point>, items: seq<Item>, grants: real, start: real, cbf: seq<Point>)
    requires Grouped(pdf, pbf, items) && ProbAll(items) > 0.0 && (forall x :: x in items ==> FairItem(x))
    requires grants >= 0.0 && BytesAll(items) > 0.0 && start == grants / (BytesAll(items) + grants)
    requires |cbf| == |pdf|
    requires forall i :: 0 <= i < |pdf| ==>
               cbf[i] == Point(pdf[i].size, start + BytesUpTo(items, pdf[i].size) / (BytesAll(items) + grants))
    ensures Complete(cbf) && ByteShares(cbf, items, grants)
    ensures Complete([Point(0, start)] + cbf) && ByteShares([Point(0, start)] + cbf, items, grants)
  {
    LastIsAll(pdf, pbf, items);
    QuotientGrows(0.0, grants, BytesAll(items) + grants);
    var last := |pdf| - 1;
    forall i, j | 0 <= i <= j < |cbf|
      ensures CbfRises(cbf, start, i, j)
    {
      CbfPair(pdf, items, grants, start, cbf, i, j);
    }
    forall i | 0 <= i < |cbf|
      ensures CbfEntry(cbf, items, grants, i) && cbf[i].size > 0 && start <= cbf[i].prob
    {
      assert CbfRises(cbf, start, i, i);
    }
    assert CbfRises(cbf, start, last, last);
    CbfRising(cbf, start);
    CbfWithGrants(items, grants, start, cbf);
  }

  ghost predicate CbfRises(cbf: seq<Point>, start: real, i: nat, j: nat)
    requires i <= j < |cbf|
  {
    start <= cbf[i].prob <= cbf[j].prob && (j == |cbf| - 1 ==> cbf[j].prob == 1.0)
  }

  lemma CbfRising(cbf: seq<Point>, start: real)
    requires start >= 0.0 && forall i, j :: 0 <= i <= j < |cbf| ==> CbfRises(cbf, start, i, j)
    ensures Rising(cbf)
  {
    forall i, j | 0 <= i <= j < |cbf|
      ensures 0.0 <= cbf[i].prob <= cbf[j].prob
    {
      assert CbfRises(cbf, start, i, j);
    }
  }

  lemma CbfPair(pdf: seq<Point>, items: seq<Item>, grants: real, start: real, cbf: seq<Point>, i: nat, j: nat)
    requires (forall x :: x in items ==> FairItem(x)) && Ascending(pdf) && i <= j < |pdf| == |cbf|
    requires BytesUpTo(items, pdf[|pdf| - 1].size) == BytesAll(items)
    requires grants >= 0.0 && BytesAll(items) > 0.0 && start == grants / (BytesAll(items) + grants)
    requires forall i :: 0 <= i < |pdf| ==>
               cbf[i] == Point(pdf[i].size, start + BytesUpTo(items, pdf[i].size) / (BytesAll(items) + grants))
    ensures CbfRises(cbf, start, i, j)
  {
    BytesNonNegative(items, pdf[i].size);
    UpToGrows(items, pdf[i].size, pdf[j].size);
    ByteQuotients(grants, BytesUpTo(items, pdf[i].size), BytesUpTo(items, pdf[j].size), BytesAll(items));
    QuotientGrows(0.0, BytesUpTo(items, pdf[i].size), BytesAll(items) + grants);
  }

  predicate NoSizeCounts(c: Params, cdf: seq<Point>)
    requires c.req > 0
  {
    forall i :: 0 <= i < |cdf| ==> !SizeCounts(c, cdf[i].size)
  }

  /** Both results are complete and hold the shares of packets and of bytes. */
  ghost predicate Estimated(c: Params, cdf: seq<Point>, grantTraffic: bool, sizeCdf: seq<Point>, sizeCbf: seq<Point>)
    requires c.req > 0
  {
    var items := AllItems(c, cdf, |cdf|);
    && Complete(sizeCdf) && Shares(sizeCdf, items) && Complete(sizeCbf)
    && ByteShares(sizeCbf, items, if grantTraffic then AllGrants(c, cdf, |cdf|) else 0.0)
    && ByteKeys(sizeCbf, items, grantTraffic)
  }

  /** The sizes of the byte shares: those counted, and zero for grants. */
  ghost predicate ByteKeys(cbf: seq<Point>, items: seq<Item>, grantTraffic: bool) {
    forall k: nat :: HasKey(cbf, k) <==> Mentions(items, k) || (grantTraffic && k == 0)
  }

  lemma KeysOfGroup(pdf: seq<Point>, pbf: seq<Point>, items: seq<Item>, cbf: seq<Point>)
    requires Grouped(pdf, pbf, items) && Aligned(cbf, pdf)
    ensures ByteKeys(cbf, items, false)
  {
    forall k: nat
      ensures HasKey(cbf, k) <==> Mentions(items, k)
    {
      SameKeys(cbf, pdf, k);
      assert GroupAt(pdf, pbf, items, k);
    }
  }

  lemma KeysWithGrants(items: seq<Item>, cbf: seq<Point>, start: real)
    requires ByteKeys(cbf, items, false)
    ensures ByteKeys([Point(0, start)] + cbf, items, true)
  {
    var r := [Point(0, start)] + cbf;
    forall k: nat
      ensures HasKey(r, k) <==> HasKey(cbf, k) || k == 0
    {
      assert r[0].size == 0;
      if i :| 0 <= i < |cbf| && cbf[i].size == k { assert r[i + 1] == cbf[i]; }
      if i :| 0 < i < |r| && r[i].size == k { assert r[i] == cbf[i - 1]; }
    }
  }

  /** The estimator's two results. */
  class WorkloadEstimator {
    var remainSizeCdf: seq<Point>
    var remainSizeCbf: seq<Point>

    constructor ()
      ensures remainSizeCdf == [] && remainSizeCbf == []
    {
      remainSizeCdf, remainSizeCbf := [], [];
    }

    /** getRemainSizeCdfCbf.  It is `defined` unless the source divides zero by zero: when
        what is counted has no probability at all, or when nothing is counted and grants,
        which alone are left, have no bytes. */
    method GetRemainSizeCdfCbf(c: Params, cdf: seq<Point>, accountForGrantTraffic: bool) returns (defined: bool)
      requires c.req > 0 && Rising(cdf)
      modifies this
      ensures CountsSomething(c, cdf) ==>
        defined && Estimated(c, cdf, accountForGrantTraffic, remainSizeCdf, remainSizeCbf)
      ensures !CountsSomething(c, cdf) ==>
        (defined <==> NoSizeCounts(c, cdf) && (accountForGrantTraffic ==> AllGrants(c, cdf, |cdf|) > 0.0))
      ensures !CountsSomething(c, cdf) ==>
        remainSizeCdf == [] && remainSizeCbf == if defined && accountForGrantTraffic then [Point(0, 1.0)] else []
    {
      ghost var items := AllItems(c, cdf, |cdf|);
      var pdf, pbf, cumPkts, cumPktBytes, cumGrantBytes := GroupedItems(c, cdf);
      AllFair(c, cdf, |cdf|);
      ProbNonNegative(items, 0);
      SomethingCounted(c, cdf);
      remainSizeCdf, remainSizeCbf := [], [];
      NothingListed(pdf, pbf, items);
      if cumPkts == 0.0 {
        if pdf != [] || (accountForGrantTraffic && cumGrantBytes == 0.0) {
          return false;
        }
        if accountForGrantTraffic {
          QuotientGrows(0.0, cumGrantBytes, cumPktBytes + cumGrantBytes);
          remainSizeCbf := [Point(0, cumGrantBytes / (cumPktBytes + cumGrantBytes))];
        }
        return true;
      }
      remainSizeCdf, remainSizeCbf :=
        SharesOf(pdf, pbf, cumPkts, cumPktBytes, cumGrantBytes, accountForGrantTraffic, items);
      return true;
    }
  }

  /** The results once something is counted; grants are a first entry of size zero. */
  method SharesOf(pdf: seq<Point>, pbf: seq<Point>, cumPkts: real, cumPktBytes0: real, cumGrantBytes: real,
                  accountForGrantTraffic: bool, ghost items: seq<Item>)
    returns (cdf: seq<Point>, cbf: seq<Point>)
    requires Tallied(pdf, pbf, items, cumPkts, cumPktBytes0) && (forall x :: x in items ==> FairItem(x))
    requires cumPkts > 0.0 && cumPktBytes0 > 0.0 && cumGrantBytes >= 0.0
    ensures Complete(cdf) && Shares(cdf, items)
    ensures Complete(cbf) && ByteShares(cbf, items, if accountForGrantTraffic then cumGrantBytes else 0.0)
    ensures ByteKeys(cbf, items, accountForGrantTraffic)
  {
    var cumPktBytes := cumPktBytes0;
    var cumsumBytes := 0.0;
    if accountForGrantTraffic {
      cumPktBytes := cumPktBytes + cumGrantBytes;
      cumsumBytes := cumsumBytes + cumGrantBytes / cumPktBytes;
    }
    cdf, cbf := Accumulated(pdf, pbf, cumPkts, cumPktBytes, cumsumBytes, items);
    CdfComplete(pdf, pbf, items, cdf);
    CbfComplete(pdf, pbf, items, if accountForGrantTraffic then cumGrantBytes else 0.0, cumsumBytes, cbf);
    KeysOfGroup(pdf, pbf, items, cbf);
    if accountForGrantTraffic {
      KeysWithGrants(items, cbf, cumsumBytes);
      cbf := [Point(0, cumsumBytes)] + cbf;
    }
  }

  /** The lists are empty exactly when no packet is counted. */
  lemma NothingListed(pdf: seq<Point>, pbf: seq<Point>, items: seq<Item>)
    requires Grouped(pdf, pbf, items)
    ensures pdf == [] <==> items == []
    ensures items == [] ==> BytesAll(items) == 0.0
  {
    if items != [] { assert Mentions(items, items[0].remain) && GroupAt(pdf, pbf, items, items[0].remain); }
    if pdf != [] { assert HasKey(pdf, pdf[0].size) && GroupAt(pdf, pbf, items, pdf[0].size); }
  }

  // ---- the estimate as input to the cutoffs ----

  lemma {:induction false} CountedSizes(c: Params, cdf: seq<Point>, n: nat, k: nat)
    requires c.req > 0 && n <= |cdf| && Rising(cdf) && forall i :: 0 <= i < n ==> cdf[i].size <= k
    ensures forall x :: x in AllItems(c, cdf, n) ==> x.remain <= k
  {
    if n > 0 {
      CountedSizes(c, cdf, n - 1, k);
      SizeCounted(c, cdf[n - 1].size, ProbOf(cdf, n - 1));
    }
  }

  /** The estimate is a distribution that cutoffs can be taken from. */
  lemma EstimateIsDistribution(c: Params, cdf: seq<Point>, grantTraffic: bool, sizeCdf: seq<Point>, sizeCbf: seq<Point>)
    requires c.req > 0 && Rising(cdf) && Estimated(c, cdf, grantTraffic, sizeCdf, sizeCbf)
    requires forall i :: 0 <= i < |cdf| ==> cdf[i].size < UINT32_MAX
    ensures Distribution(sizeCdf) && Distribution(sizeCbf)
  {
    var items := AllItems(c, cdf, |cdf|);
    CountedSizes(c, cdf, |cdf|, UINT32_MAX - 1);
    forall i | 0 <= i < |sizeCdf|
      ensures sizeCdf[i].size < UINT32_MAX
    {
      assert HasKey(sizeCdf, sizeCdf[i].size) && Mentions(items, sizeCdf[i].size);
    }
    forall i | 0 <= i < |sizeCbf|
      ensures sizeCbf[i].size < UINT32_MAX
    {
      assert HasKey(sizeCbf, sizeCbf[i].size);
      assert Mentions(items, sizeCbf[i].size) || sizeCbf[i].size == 0;
    }
  }

  /** recomputeCbf in the graduated mode: the estimate, the cutoffs taken from it, and a
      binary search that may be used on them. */
  method RecomputeCbf(e: WorkloadEstimator, r: PriorityResolver, c: Params, cdf: seq<Point>, grantTraffic: bool,
                      fac: real, levels: nat)
    requires c.req > 0 && Rising(cdf) && CountsSomething(c, cdf) && fac > 0.0 && levels > 0
    requires forall i :: 0 <= i < |cdf| ==> cdf[i].size < UINT32_MAX
    modifies e, r
    ensures Estimated(c, cdf, grantTraffic, e.remainSizeCdf, e.remainSizeCbf)
    ensures ValidCutOffs(r.prioCutOffs) && |r.prioCutOffs| <= levels
    ensures TakenFrom(e.remainSizeCbf, fac, levels, r.prioCutOffs)
  {
    var _ := e.GetRemainSizeCdfCbf(c, cdf, grantTraffic);
    EstimateIsDistribution(c, cdf, grantTraffic, e.remainSizeCdf, e.remainSizeCbf);
    r.SetPrioCutOffs(CbfGraduated, [], [], [], e.remainSizeCbf, fac, levels);
  }
}

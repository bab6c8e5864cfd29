/** One message at its receiver (InboundMessage in HomaTransport.cc) and the facts that
    tie its counters to the packets and grants that are still on their way. */
module Inbound {
  import opened Wire
  import opened HomaTypes
  import opened Keys

  /** A chunk in inflightGrants; the unscheduled bytes are the entry at offset zero. */
  datatype Entry = Entry(off: int, len: int)

  datatype InMsg = InMsg(
    src: Addr, id: nat,     // srcAddr, msgIdAtSender
    size: nat, created: int, totalUnsched: nat,
    toGrant: int,           // bytesToGrant
    offset: int,
    grantedInFlight: int,   // bytesGrantedInFlight
    inFlight: int,          // totalBytesInFlight
    toReceive: int,         // bytesToReceive
    grants: seq<Entry>)     // inflightGrants

  function KeyOf(i: InMsg): Key { Key(i.toGrant, i.size, i.created, i.id) }

  /** The message as its first packet announces it. */
  function NewInMsg(p: Pkt): InMsg
    requires p.Unsched?
  {
    Announced(p.m, p.hdr.size, p.hdr.created, p.hdr.total)
  }

  function Announced(m: MsgRef, size: nat, created: int, total: nat): InMsg {
    InMsg(m.src, m.id, size, created, total, size - total, total, 0,
          BytesOnWire(total, UNSCHED_DATA), size, [Entry(0, total)])
  }

  function FindEntry(grants: seq<Entry>, off: int): (k: nat)
    ensures k <= |grants|
    ensures k < |grants| ==> grants[k].off == off
    ensures forall j :: 0 <= j < k ==> grants[j].off != off
  {
    if grants == [] || grants[0].off == off then 0 else 1 + FindEntry(grants[1..], off)
  }

  /** What fillinRxBytes asserts about the list before it changes it. */
  predicate FillAsserts(i: InMsg, p: Pkt) {
    if p.Unsched? then
      i.grants != [] && i.grants[0].off == 0 && i.grants[0].len >= p.len
    else
      var k := FindEntry(i.grants, p.first);
      p.len > 0 && k < |i.grants| && i.grants[k].len == p.len
  }

  /** fillinRxBytes */
  function Fill(i: InMsg, p: Pkt): InMsg
    requires !p.Grant? && FillAsserts(i, p)
  {
    var j := i.(toReceive := i.toReceive - p.len, inFlight := i.inFlight - DataWire(p));
    if p.Unsched? then
      var rest := i.grants[0].len - p.len;
      j.(grants := (if rest == 0 then [] else [Entry(0, rest)]) + i.grants[1..])
    else
      var k := FindEntry(i.grants, p.first);
      j.(grants := i.grants[..k] + i.grants[k + 1..], grantedInFlight := i.grantedInFlight - p.len)
  }

  /** fillinRxBytes as it runs: the entry of a scheduled packet is searched by offset. */
  method FillInRxBytes(i: InMsg, p: Pkt) returns (j: InMsg)
    requires !p.Grant? && FillAsserts(i, p)
    ensures j == Fill(i, p)
  {
    j := i.(toReceive := i.toReceive - p.len, inFlight := i.inFlight - DataWire(p));
    if p.Unsched? {
      var rest := i.grants[0].len - p.len;
      j := j.(grants := if rest == 0 then i.grants[1..] else [Entry(0, rest)] + i.grants[1..]);
      assert [] + i.grants[1..] == i.grants[1..];
    } else {
      var k := 0;
      while k < |i.grants| && i.grants[k].off != p.first
        invariant k <= FindEntry(i.grants, p.first)
        decreases |i.grants| - k
      {
        k := k + 1;
      }
      assert k == FindEntry(i.grants, p.first);
      j := j.(grants := i.grants[..k] + i.grants[k + 1..], grantedInFlight := i.grantedInFlight - p.len);
    }
  }

  /** prepareGrant, for the message's own counters */
  function PrepareGrant(i: InMsg, grantSize: nat): InMsg {
    i.(grants := i.grants + [Entry(i.offset, grantSize)],
       toGrant := i.toGrant - grantSize,
       offset := i.offset + grantSize,
       grantedInFlight := i.grantedInFlight + grantSize,
       inFlight := i.inFlight + BytesOnWire(grantSize, SCHED_DATA))
  }

  function WithoutZero(grants: seq<Entry>): seq<Entry> {
    if grants != [] && grants[0].off == 0 then grants[1..] else grants
  }

  /** Entries for granted chunks: everything but the entry at offset zero. */
  function SchedEntries(i: InMsg): seq<Entry> {
    WithoutZero(i.grants)
  }

  ghost predicate PktFits(i: InMsg, p: Pkt) {
    if p.Unsched? then
      p.first + p.len <= i.totalUnsched && (i.size > 0 ==> p.len > 0)
    else
      i.totalUnsched <= p.first && p.first + p.len <= i.size && p.len > 0
  }

  /** The entry at offset zero stands for the unscheduled bytes still to come. */
  ghost predicate ZeroEntryOk(m: MsgRef, i: InMsg, bag: multiset<Pkt>) {
    if i.size == 0 then i.grants == [Entry(0, 0)]
    else if Sum(bag, UBytes(m)) > 0 then i.grants != [] && i.grants[0] == Entry(0, Sum(bag, UBytes(m)))
    else i.grants != [] ==> i.grants[0].off != 0
  }

  /** The other entries of inflightGrants are exactly the chunks still on their way. */
  ghost predicate EntriesOk(m: MsgRef, es: seq<Entry>, bag: multiset<Pkt>) {
    forall a: nat, b: nat :: multiset(es)[Entry(a, b)] == Sum(bag, Chunk(m, a, b))
  }

  predicate EntriesBeyond(es: seq<Entry>, totalUnsched: int) {
    forall k :: 0 <= k < |es| ==> es[k].off >= totalUnsched && es[k].len >= 0
  }

  ghost predicate ListOk(m: MsgRef, i: InMsg, bag: multiset<Pkt>) {
    && ZeroEntryOk(m, i, bag)
    && EntriesBeyond(SchedEntries(i), i.totalUnsched)
    && EntriesOk(m, SchedEntries(i), bag)
  }

  /** How many packets of the bag, grants included, stand for byte `b`. */
  ghost function Cover(bag: multiset<Pkt>, m: MsgRef, b: nat): nat { Sum(bag, Covers(m, b)) }

  /** Every byte of the message is in exactly one place: received, on its way, asked for,
      or in the suffix that still needs a grant. */
  ghost predicate OncePerByte(m: MsgRef, i: InMsg, bag: multiset<Pkt>, rcvd: multiset<Pkt>) {
    forall b: nat :: b < i.size ==>
      Cover(bag, m, b) + Cover(rcvd, m, b) + (if b >= i.offset then 1 else 0) == 1
  }

  ghost predicate CountersOk(m: MsgRef, i: InMsg, bag: multiset<Pkt>) {
    && i.toReceive == i.toGrant + Sum(bag, UBytes(m)) + Sum(bag, SBytes(m))
    && i.grantedInFlight == Sum(bag, SBytes(m))
    && i.inFlight == Sum(bag, WireBytes(m))
  }

  predicate Shape(m: MsgRef, i: InMsg) {
    && i.src == m.src && i.id == m.id
    && 0 <= i.totalUnsched <= i.offset && (i.size > 0 ==> i.totalUnsched > 0)
    && i.toGrant >= 0 && i.offset == i.size - i.toGrant
  }

  ghost predicate AllFit(m: MsgRef, i: InMsg, bag: multiset<Pkt>) {
    forall p :: p in bag && p.m == m ==> PktFits(i, p)
  }

  /** The state of message `m` at its receiver agrees with the packets and grants of the
      message that are under way (`bag`) and those that have arrived (`rcvd`). */
  ghost predicate Agrees(m: MsgRef, i: InMsg, bag: multiset<Pkt>, rcvd: multiset<Pkt>) {
    && Shape(m, i)
    && AllFit(m, i, bag)
    && CountersOk(m, i, bag)
    && ListOk(m, i, bag)
    && OncePerByte(m, i, bag, rcvd)
  }

  /** Two packets that stand for the same byte cannot both be under way. */
  lemma NoOverlap(m: MsgRef, i: InMsg, bag: multiset<Pkt>, rcvd: multiset<Pkt>, p: Pkt, q: Pkt, b: nat)
    requires OncePerByte(m, i, bag, rcvd) && b < i.size
    requires p in bag && q in bag && p.m == m == q.m
    requires p.first <= b < p.first + p.len && q.first <= b < q.first + q.len
    ensures p == q
  {
    SumTake(bag, p);
    assert Cover(bag, m, b) == Weigh(Covers(m, b), p) + Sum(bag - multiset{p}, Covers(m, b));
    if p != q {
      SumAtLeast(bag - multiset{p}, q, Covers(m, b));
    }
  }

  /** A scheduled packet under way has its entry, and the search by offset finds it. */
  lemma EntryFound(m: MsgRef, i: InMsg, bag: multiset<Pkt>, rcvd: multiset<Pkt>, p: Pkt)
    requires Agrees(m, i, bag, rcvd) && p in bag && p.m == m && p.Sched?
    ensures FillAsserts(i, p)
    ensures FindEntry(i.grants, p.first) >= |i.grants| - |SchedEntries(i)|
  {
    assert PktFits(i, p);
    SumAtLeast(bag, p, Chunk(m, p.first, p.len));
    var es := SchedEntries(i);
    assert multiset(es)[Entry(p.first, p.len)] > 0;
    var k := FindEntry(i.grants, p.first);
    assert k < |i.grants|;
    var e := i.grants[k];
    assert e in multiset(es);
    var q := SumPositiveHas(bag, Chunk(m, p.first, e.len));
    NoOverlap(m, i, bag, rcvd, p, q, p.first);
  }

  lemma UnschedAsserts(m: MsgRef, i: InMsg, bag: multiset<Pkt>, p: Pkt)
    requires AllFit(m, i, bag) && ZeroEntryOk(m, i, bag) && p in bag && p.m == m && p.Unsched?
    requires i.size == 0 ==> i.totalUnsched == 0
    ensures FillAsserts(i, p)
  {
    assert PktFits(i, p);
    SumAtLeast(bag, p, UBytes(m));
  }

  lemma TakeCounters(m: MsgRef, i: InMsg, bag: multiset<Pkt>, p: Pkt)
    requires CountersOk(m, i, bag) && p in bag && p.m == m && !p.Grant? && FillAsserts(i, p)
    ensures CountersOk(m, Fill(i, p), bag - multiset{p})
  {
    SumTake(bag, p);
    assert Sum(bag, UBytes(m)) == Weigh(UBytes(m), p) + Sum(bag - multiset{p}, UBytes(m));
    assert Sum(bag, SBytes(m)) == Weigh(SBytes(m), p) + Sum(bag - multiset{p}, SBytes(m));
    assert Sum(bag, WireBytes(m)) == Weigh(WireBytes(m), p) + Sum(bag - multiset{p}, WireBytes(m));
  }

  lemma TakeCover(m: MsgRef, i: InMsg, bag: multiset<Pkt>, rcvd: multiset<Pkt>, p: Pkt)
    requires OncePerByte(m, i, bag, rcvd) && p in bag && !p.Grant? && FillAsserts(i, p)
    ensures OncePerByte(m, Fill(i, p), bag - multiset{p}, rcvd + multiset{p})
  {
    SumTake(bag, p);
    SumAdd(rcvd, p);
    forall b: nat | b < i.size
      ensures Cover(bag - multiset{p}, m, b) + Cover(rcvd + multiset{p}, m, b) == Cover(bag, m, b) + Cover(rcvd, m, b)
    {
    }
  }

  lemma ChunkTaken(m: MsgRef, es: seq<Entry>, es': seq<Entry>, bag: multiset<Pkt>, p: Pkt)
    requires EntriesOk(m, es, bag) && p in bag && p.m == m
    requires p.Unsched? ==> es' == es
    requires !p.Unsched? ==> multiset(es') == multiset(es) - multiset{Entry(p.first, p.len)}
    ensures EntriesOk(m, es', bag - multiset{p})
  {
    SumTake(bag, p);
    forall a: nat, b: nat
      ensures multiset(es')[Entry(a, b)] == Sum(bag - multiset{p}, Chunk(m, a, b))
    {
      assert Sum(bag, Chunk(m, a, b)) == Weigh(Chunk(m, a, b), p) + Sum(bag - multiset{p}, Chunk(m, a, b));
    }
  }

  /** An arriving unscheduled packet keeps the agreement. */
  lemma FillUnsched(m: MsgRef, i: InMsg, bag: multiset<Pkt>, rcvd: multiset<Pkt>, p: Pkt)
    requires Agrees(m, i, bag, rcvd) && p in bag && p.m == m && p.Unsched?
    requires i.size > 0
    ensures FillAsserts(i, p)
    ensures Agrees(m, Fill(i, p), bag - multiset{p}, rcvd + multiset{p})
  {
    UnschedAsserts(m, i, bag, p);
    var i' := Fill(i, p);
    TakeCounters(m, i, bag, p);
    TakeCover(m, i, bag, rcvd, p);
    assert PktFits(i, p);
    SumAtLeast(bag, p, UBytes(m));
    assert SchedEntries(i) == i.grants[1..];
    if i'.grants != [] && i'.grants[0].off != 0 {
      assert i'.grants == SchedEntries(i);
    }
    assert i.grants[0].len == p.len ==> i'.grants == SchedEntries(i);
    assert SchedEntries(i') == SchedEntries(i);
    ChunkTaken(m, SchedEntries(i), SchedEntries(i'), bag, p);
    ZeroEntryTaken(m, i, bag, p);
  }

  lemma ZeroEntryTaken(m: MsgRef, i: InMsg, bag: multiset<Pkt>, p: Pkt)
    requires ZeroEntryOk(m, i, bag) && p in bag && p.m == m && p.Unsched? && i.size > 0 && p.len > 0
    requires i.totalUnsched > 0 && EntriesBeyond(SchedEntries(i), i.totalUnsched) && FillAsserts(i, p)
    ensures ZeroEntryOk(m, Fill(i, p), bag - multiset{p})
  {
    SumTake(bag, p);
    assert Sum(bag, UBytes(m)) == Weigh(UBytes(m), p) + Sum(bag - multiset{p}, UBytes(m));
    var i' := Fill(i, p);
    if Sum(bag - multiset{p}, UBytes(m)) == 0 && i'.grants != [] {
      assert i'.grants == SchedEntries(i);
      assert i'.grants[0] == SchedEntries(i)[0];
    }
  }

  /** An arriving scheduled packet keeps the agreement. */
  lemma FillSched(m: MsgRef, i: InMsg, bag: multiset<Pkt>, rcvd: multiset<Pkt>, p: Pkt)
    requires Agrees(m, i, bag, rcvd) && p in bag && p.m == m && p.Sched?
    ensures FillAsserts(i, p)
    ensures Agrees(m, Fill(i, p), bag - multiset{p}, rcvd + multiset{p})
  {
    EntryFound(m, i, bag, rcvd, p);
    assert PktFits(i, p);
    FillShape(m, i, bag, p);
    TakeCounters(m, i, bag, p);
    TakeCover(m, i, bag, rcvd, p);
    EntryTaken(m, i, bag, p);
  }

  lemma FillShape(m: MsgRef, i: InMsg, bag: multiset<Pkt>, p: Pkt)
    requires Shape(m, i) && AllFit(m, i, bag) && !p.Grant? && FillAsserts(i, p)
    ensures Shape(m, Fill(i, p)) && AllFit(m, Fill(i, p), bag - multiset{p})
  {
    forall q | q in bag - multiset{p} && q.m == m
      ensures PktFits(Fill(i, p), q)
    {
      assert q in bag && PktFits(i, q);
    }
  }

  lemma EntryTaken(m: MsgRef, i: InMsg, bag: multiset<Pkt>, p: Pkt)
    requires ListOk(m, i, bag) && p in bag && p.m == m && p.Sched? && FillAsserts(i, p)
    requires FindEntry(i.grants, p.first) >= |i.grants| - |SchedEntries(i)|
    requires i.size > 0 && i.totalUnsched > 0
    ensures ListOk(m, Fill(i, p), bag - multiset{p})
  {
    var rest := EntryErased(i, p);
    ChunkTaken(m, SchedEntries(i), WithoutZero(rest), bag, p);
    ZeroEntryStays(m, i, rest, bag, p);
  }

  /** The list without the entry of the packet. */
  lemma EntryErased(i: InMsg, p: Pkt) returns (rest: seq<Entry>)
    requires p.Sched? && FillAsserts(i, p) && i.totalUnsched > 0 && EntriesBeyond(SchedEntries(i), i.totalUnsched)
    requires FindEntry(i.grants, p.first) >= |i.grants| - |SchedEntries(i)|
    ensures i.grants != [] && Fill(i, p).grants == rest && EntriesBeyond(WithoutZero(rest), i.totalUnsched)
    ensures multiset(WithoutZero(rest)) == multiset(SchedEntries(i)) - multiset{Entry(p.first, p.len)}
    ensures i.grants[0].off == 0 ==> rest != [] && rest[0] == i.grants[0]
    ensures i.grants[0].off != 0 && rest != [] ==> rest[0].off != 0
  {
    var k := FindEntry(i.grants, p.first);
    rest := i.grants[..k] + i.grants[k + 1..];
    DropEntry(i.grants, k, i.totalUnsched);
  }

  lemma ZeroEntryStays(m: MsgRef, i: InMsg, rest: seq<Entry>, bag: multiset<Pkt>, p: Pkt)
    requires ZeroEntryOk(m, i, bag) && i.size > 0 && p in bag && p.Sched? && i.grants != []
    requires i.grants[0].off == 0 ==> rest != [] && rest[0] == i.grants[0]
    requires i.grants[0].off != 0 && rest != [] ==> rest[0].off != 0
    ensures ZeroEntryOk(m, i.(grants := rest), bag - multiset{p})
    ensures Sum(bag - multiset{p}, UBytes(m)) == Sum(bag, UBytes(m))
  {
    SumTake(bag, p);
    assert Sum(bag, UBytes(m)) == Weigh(UBytes(m), p) + Sum(bag - multiset{p}, UBytes(m));
  }

  /** Erasing the entry of a granted chunk leaves the entry at offset zero alone. */
  lemma DropEntry(grants: seq<Entry>, k: nat, total: nat)
    requires total > 0 && EntriesBeyond(WithoutZero(grants), total)
    requires |grants| - |WithoutZero(grants)| <= k < |grants|
    ensures var g' := grants[..k] + grants[k + 1..];
      && EntriesBeyond(WithoutZero(g'), total)
      && multiset(WithoutZero(g')) == multiset(WithoutZero(grants)) - multiset{grants[k]}
      && (grants[0].off == 0 ==> g' != [] && g'[0] == grants[0])
      && (grants[0].off != 0 && g' != [] ==> g'[0].off != 0)
  {
    var es := WithoutZero(grants);
    if grants[0].off == 0 {
      DropLater(grants, k);
      EraseBeyond(es, k - 1, total);
    } else {
      DropAny(grants, k);
      EraseBeyond(es, k, total);
    }
  }

  lemma DropLater(grants: seq<Entry>, k: nat)
    requires 0 < k < |grants|
    ensures var g', es := grants[..k] + grants[k + 1..], grants[1..];
      g' != [] && g'[0] == grants[0] && g'[1..] == es[..k - 1] + es[k..] && es[k - 1] == grants[k]
  {
  }

  lemma DropAny(grants: seq<Entry>, k: nat)
    requires k < |grants|
    ensures var g' := grants[..k] + grants[k + 1..];
      g' != [] ==> g'[0] == if k == 0 then grants[1] else grants[0]
  {
  }

  lemma EraseBeyond(es: seq<Entry>, j: nat, total: int)
    requires j < |es| && EntriesBeyond(es, total)
    ensures EntriesBeyond(es[..j] + es[j + 1..], total)
    ensures multiset(es[..j] + es[j + 1..]) == multiset(es) - multiset{es[j]}
  {
    var l := es[..j] + es[j + 1..];
    assert forall k :: 0 <= k < |l| ==> l[k] == if k < j then es[k] else es[k + 1];
    EraseMultiset(es, j);
  }

  lemma EraseMultiset(es: seq<Entry>, j: nat)
    requires j < |es|
    ensures multiset(es[..j] + es[j + 1..]) == multiset(es) - multiset{es[j]}
  {
    assert es == es[..j] + [es[j]] + es[j + 1..];
  }

  /** A grant for the next chunk of the message keeps the agreement. */
  lemma GrantIssued(m: MsgRef, i: InMsg, bag: multiset<Pkt>, rcvd: multiset<Pkt>, g: Pkt)
    requires Agrees(m, i, bag, rcvd)
    requires g.Grant? && g.m == m && g.first == i.offset && 0 < g.len <= i.toGrant
    ensures Agrees(m, PrepareGrant(i, g.len), bag + multiset{g}, rcvd)
  {
    GrantCounted(m, i, bag, g);
    GrantInList(m, i, bag, g);
    GrantCovers(m, i, bag, rcvd, g);
  }

  lemma GrantCounted(m: MsgRef, i: InMsg, bag: multiset<Pkt>, g: Pkt)
    requires CountersOk(m, i, bag) && g.Grant? && g.m == m && g.first == i.offset && 0 < g.len <= i.toGrant
    ensures CountersOk(m, PrepareGrant(i, g.len), bag + multiset{g})
  {
    SumAdd(bag, g);
    assert Sum(bag + multiset{g}, UBytes(m)) == Sum(bag, UBytes(m)) + Weigh(UBytes(m), g);
    assert Sum(bag + multiset{g}, SBytes(m)) == Sum(bag, SBytes(m)) + Weigh(SBytes(m), g);
    assert Sum(bag + multiset{g}, WireBytes(m)) == Sum(bag, WireBytes(m)) + Weigh(WireBytes(m), g);
  }

  lemma GrantInList(m: MsgRef, i: InMsg, bag: multiset<Pkt>, g: Pkt)
    requires Shape(m, i) && ListOk(m, i, bag)
    requires g.Grant? && g.m == m && g.first == i.offset && 0 < g.len <= i.toGrant
    ensures ListOk(m, PrepareGrant(i, g.len), bag + multiset{g})
  {
    GrantAppended(i, g.len);
    GrantAfterZero(m, i, bag, g);
    GrantListed(m, SchedEntries(i), bag, g);
  }

  lemma GrantAfterZero(m: MsgRef, i: InMsg, bag: multiset<Pkt>, g: Pkt)
    requires Shape(m, i) && ZeroEntryOk(m, i, bag) && g.Grant? && 0 < g.len <= i.toGrant
    ensures ZeroEntryOk(m, PrepareGrant(i, g.len), bag + multiset{g})
  {
    SumAdd(bag, g);
    assert Sum(bag + multiset{g}, UBytes(m)) == Sum(bag, UBytes(m)) + Weigh(UBytes(m), g);
    GrantAppended(i, g.len);
  }

  lemma GrantAppended(i: InMsg, len: nat)
    requires i.offset > 0
    ensures SchedEntries(PrepareGrant(i, len)) == SchedEntries(i) + [Entry(i.offset, len)]
    ensures i.grants != [] ==> PrepareGrant(i, len).grants[0] == i.grants[0]
    ensures i.grants == [] ==> PrepareGrant(i, len).grants[0].off != 0
  {
  }

  lemma GrantListed(m: MsgRef, es: seq<Entry>, bag: multiset<Pkt>, g: Pkt)
    requires EntriesOk(m, es, bag) && g.Grant? && g.m == m
    ensures EntriesOk(m, es + [Entry(g.first, g.len)], bag + multiset{g})
  {
    SumAdd(bag, g);
    forall a: nat, b: nat
      ensures multiset(es + [Entry(g.first, g.len)])[Entry(a, b)] == Sum(bag + multiset{g}, Chunk(m, a, b))
    {
      assert Sum(bag + multiset{g}, Chunk(m, a, b)) == Sum(bag, Chunk(m, a, b)) + Weigh(Chunk(m, a, b), g);
    }
  }

  lemma GrantCovers(m: MsgRef, i: InMsg, bag: multiset<Pkt>, rcvd: multiset<Pkt>, g: Pkt)
    requires OncePerByte(m, i, bag, rcvd)
    requires g.Grant? && g.m == m && g.first == i.offset
    ensures OncePerByte(m, PrepareGrant(i, g.len), bag + multiset{g}, rcvd)
  {
    SumAdd(bag, g);
    forall b: nat | b < i.size
      ensures Cover(bag + multiset{g}, m, b) == Cover(bag, m, b) + if g.first <= b < g.first + g.len then 1 else 0
    {
      assert Sum(bag + multiset{g}, Covers(m, b)) == Sum(bag, Covers(m, b)) + Weigh(Covers(m, b), g);
    }
  }

  /** The scheduled packet that answers a grant stands for the same bytes. */
  lemma GrantAnswered(m: MsgRef, i: InMsg, bag: multiset<Pkt>, rcvd: multiset<Pkt>, g: Pkt, p: Pkt)
    requires Agrees(m, i, bag, rcvd) && g in bag
    requires g.Grant? && g.m == m && p == Sched(m, g.dst, g.first, g.len, g.prio)
    ensures Agrees(m, i, bag - multiset{g} + multiset{p}, rcvd)
    ensures forall w: Weight :: !w.GBytes? && !w.Load? ==> Sum(bag - multiset{g} + multiset{p}, w) == Sum(bag, w)
  {
    var bag' := bag - multiset{g} + multiset{p};
    SumTake(bag, g);
    SumAdd(bag - multiset{g}, p);
    SameWeights(g, p);
    forall w: Weight | !w.GBytes? && !w.Load?
      ensures Sum(bag', w) == Sum(bag, w)
    {
      assert Sum(bag', w) == Sum(bag - multiset{g}, w) + Weigh(w, p);
    }
    assert PktFits(i, g);
    Unchanged(m, i, bag, rcvd, bag', rcvd);
  }

  lemma SameWeights(g: Pkt, p: Pkt)
    requires g.Grant? && p == Sched(g.m, g.dst, g.first, g.len, g.prio)
    ensures forall w: Weight :: !w.GBytes? && !w.Load? ==> Weigh(w, g) == Weigh(w, p)
  {
    assert DataWire(g) == DataWire(p);
  }

  /** Only the sums of the message's own weights matter. */
  lemma Unchanged(m: MsgRef, i: InMsg, bag: multiset<Pkt>, rcvd: multiset<Pkt>,
                  bag': multiset<Pkt>, rcvd': multiset<Pkt>)
    requires Agrees(m, i, bag, rcvd) && AllFit(m, i, bag')
    requires forall w: Weight :: !w.Load? && !w.GBytes? && w.m == m ==>
               Sum(bag', w) == Sum(bag, w) && Sum(rcvd', w) == Sum(rcvd, w)
    ensures Agrees(m, i, bag', rcvd')
  {
    UnchangedList(m, i, bag, bag');
    UnchangedBytes(m, i, bag, rcvd, bag', rcvd');
  }

  lemma UnchangedList(m: MsgRef, i: InMsg, bag: multiset<Pkt>, bag': multiset<Pkt>)
    requires CountersOk(m, i, bag) && ListOk(m, i, bag)
    requires forall w: Weight :: !w.Load? && !w.GBytes? && w.m == m ==> Sum(bag', w) == Sum(bag, w)
    ensures CountersOk(m, i, bag') && ListOk(m, i, bag')
  {
  }

  lemma UnchangedBytes(m: MsgRef, i: InMsg, bag: multiset<Pkt>, rcvd: multiset<Pkt>,
                       bag': multiset<Pkt>, rcvd': multiset<Pkt>)
    requires OncePerByte(m, i, bag, rcvd)
    requires forall w: Weight :: !w.Load? && !w.GBytes? && w.m == m ==>
               Sum(bag', w) == Sum(bag, w) && Sum(rcvd', w) == Sum(rcvd, w)
    ensures OncePerByte(m, i, bag', rcvd')
  {
    forall b: nat | b < i.size
      ensures Cover(bag', m, b) + Cover(rcvd', m, b) + (if b >= i.offset then 1 else 0) == 1
    {
      assert Sum(bag', Covers(m, b)) == Sum(bag, Covers(m, b));
      assert Cover(bag, m, b) + Cover(rcvd, m, b) + (if b >= i.offset then 1 else 0) == 1;
    }
  }

  /** A complete message has nothing left to grant, nothing under way, an empty list, and
      every byte of it has arrived once. */
  lemma CompleteMeansAll(m: MsgRef, i: InMsg, bag: multiset<Pkt>, rcvd: multiset<Pkt>)
    requires Agrees(m, i, bag, rcvd) && i.size > 0 && i.toReceive == 0
    ensures i.toGrant == 0 && i.grants == [] && i.inFlight == 0 && i.grantedInFlight == 0
    ensures forall p :: p in bag ==> p.m != m
    ensures forall b: nat :: b < i.size ==> Cover(rcvd, m, b) == 1
  {
    forall p | p in bag
      ensures p.m != m
    {
      if p.m == m {
        SumAtLeast(bag, p, UBytes(m));
        SumAtLeast(bag, p, SBytes(m));
      }
    }
    SumNone(bag, WireBytes(m));
    if i.grants != [] {
      assert SchedEntries(i) == i.grants;
      var e := i.grants[0];
      assert e in multiset(SchedEntries(i));
      SumNone(bag, Chunk(m, e.off, e.len));
    }
    forall b: nat | b < i.size
      ensures Cover(rcvd, m, b) == 1
    {
      SumNone(bag, Covers(m, b));
      assert Cover(bag, m, b) + Cover(rcvd, m, b) + (if b >= i.offset then 1 else 0) == 1;
    }
  }
}

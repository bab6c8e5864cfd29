/** Configuration, packets and messages of the Homa transport, and weighted sums over
    bags of packets. */
module HomaTypes {
  import opened Sums
  import opened Wire
  import opened Packetize
  import opened Priority

  type Addr = nat

  /** A message is identified by its sending host and the number it has there. */
  datatype MsgRef = MsgRef(src: Addr, id: nat)

  datatype Config = Config(
    allPrio: nat,           // priority levels of the network
    schedPrios: nat,        // adaptiveSchedPrioLevels
    numToGrant: nat,        // numSendersToKeepGranted
    maxOutstanding: nat,    // maxOutstandingRecvBytes
    grantMax: nat,          // grantMaxBytes, after it is clamped to one packet
    req: nat,               // defaultReqBytes
    unsched: nat,           // defaultUnschedBytes
    mode: PrioMode,
    cutOffs: seq<nat>,
    boostTail: nat)         // boostTailBytesPrio
  {
    ghost predicate Valid() {
      && 1 <= numToGrant <= schedPrios <= allPrio
      && maxOutstanding >= 1
      && 1 <= grantMax <= MAX_SCHED
      && 1 <= req <= MAX_UNSCHED
      && ExactConfig(req, unsched)
      && req + unsched < 0x1_0000
      && ValidCutOffs(cutOffs) && |cutOffs| <= allPrio
    }
  }

  /** A configuration that satisfies all of this. */
  type ValidConfig = c: Config | c.Valid()
    ghost witness Config(2, 1, 1, 1, 1, MAX_UNSCHED, 0, CbfGraduated, [UINT32_MAX], 0)

  /** What request and unscheduled packets say about their message. */
  datatype UnschedHdr = UnschedHdr(size: nat, created: int, total: nat, others: seq<PrioBytes>)

  /** `dst` is always the receiver of the message, also in a grant, which travels from
      `dst` to `m.src`.  A packet carries the bytes `first .. first + len`. */
  datatype Pkt =
    | Unsched(m: MsgRef, dst: Addr, request: bool, first: nat, len: nat, prio: nat, hdr: UnschedHdr)
    | Sched(m: MsgRef, dst: Addr, first: nat, len: nat, prio: nat)
    | Grant(m: MsgRef, dst: Addr, first: nat, len: nat, prio: nat)

  /** A data packet on the wire; for a grant, the data packet it asks for. */
  function DataWire(p: Pkt): nat {
    BytesOnWire(p.len, if p.Unsched? then UNSCHED_DATA else SCHED_DATA)
  }

  /** A message as the application hands it over. */
  datatype Spec = Spec(dst: Addr, size: nat, created: int)

  predicate ValidSpec(s: Spec) { s.size <= UINT32_MAX }

  /** The quantities of a bag of packets the proofs keep track of. */
  datatype Weight =
    | UBytes(m: MsgRef)                  // unscheduled data bytes
    | SBytes(m: MsgRef)                  // bytes granted: in grants or in scheduled packets
    | GBytes(m: MsgRef)                  // bytes in grants
    | WireBytes(m: MsgRef)               // wire size of data packets sent or asked for
    | UWire(m: MsgRef, prio: nat)        // ... unscheduled, at one priority
    | SWire(m: MsgRef, prio: nat)        // ... scheduled or granted, at one priority
    | Chunk(m: MsgRef, first: nat, len: nat) // granted chunks of this position and length
    | Covers(m: MsgRef, byte: nat)       // packets that stand for this byte
    | Count(m: MsgRef)                   // packets and grants
    | Load                               // steps a packet still has to make

  predicate Concerns(w: Weight, m: MsgRef) { w.Load? || w.m == m }

  function Weigh(w: Weight, p: Pkt): nat {
    if !Concerns(w, p.m) then 0 else
    match w
    case UBytes(_) => if p.Unsched? then p.len else 0
    case SBytes(_) => if p.Unsched? then 0 else p.len
    case GBytes(_) => if p.Grant? then p.len else 0
    case WireBytes(_) => DataWire(p)
    case UWire(_, prio) => if p.Unsched? && p.prio == prio then DataWire(p) else 0
    case SWire(_, prio) => if !p.Unsched? && p.prio == prio then DataWire(p) else 0
    case Chunk(_, first, len) => if !p.Unsched? && p.first == first && p.len == len then 1 else 0
    case Covers(_, b) => if p.first <= b < p.first + p.len then 1 else 0
    case Count(_) => 1
    case Load => if p.Grant? then 4 else 1
  }

  function WeightFn(w: Weight): Pkt -> nat { p => Weigh(w, p) }

  ghost function Sum(bag: multiset<Pkt>, w: Weight): nat { SumOf(bag, WeightFn(w)) }

  lemma SumTake(bag: multiset<Pkt>, p: Pkt)
    requires p in bag
    ensures forall w :: Sum(bag, w) == Weigh(w, p) + Sum(bag - multiset{p}, w)
  {
    forall w
      ensures Sum(bag, w) == Weigh(w, p) + Sum(bag - multiset{p}, w)
    {
      SumOfTake(bag, p, WeightFn(w));
    }
  }

  lemma SumAdd(bag: multiset<Pkt>, p: Pkt)
    ensures forall w :: Sum(bag + multiset{p}, w) == Sum(bag, w) + Weigh(w, p)
  {
    forall w
      ensures Sum(bag + multiset{p}, w) == Sum(bag, w) + Weigh(w, p)
    {
      SumOfAdd(bag, p, WeightFn(w));
    }
  }

  lemma SumNone(bag: multiset<Pkt>, w: Weight)
    requires forall p :: p in bag ==> Weigh(w, p) == 0
    ensures Sum(bag, w) == 0
  {
    SumOfNone(bag, WeightFn(w));
  }

  lemma SumAtLeast(bag: multiset<Pkt>, p: Pkt, w: Weight)
    requires p in bag
    ensures Weigh(w, p) <= Sum(bag, w)
  {
    SumTake(bag, p);
  }

  lemma SumPositiveHas(bag: multiset<Pkt>, w: Weight) returns (p: Pkt)
    requires Sum(bag, w) > 0
    ensures p in bag && Weigh(w, p) > 0
  {
    p := SumOfPositive(bag, WeightFn(w));
  }

  function SumList(s: seq<Pkt>, w: Weight): nat {
    if s == [] then 0 else SumList(s[..|s| - 1], w) + Weigh(w, s[|s| - 1])
  }

  lemma {:induction false} SumOfList(s: seq<Pkt>, w: Weight)
    ensures Sum(multiset(s), w) == SumList(s, w)
  {
    if s != [] {
      var t := s[..|s| - 1];
      assert s == t + [s[|s| - 1]];
      assert multiset(s) == multiset(t) + multiset{s[|s| - 1]};
      SumOfList(t, w);
      SumAdd(multiset(t), s[|s| - 1]);
    }
  }
}

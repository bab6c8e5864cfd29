/** Bytes on the wire (HomaPkt.cc): header sizes, Ethernet framing, and when the
    size of a message on the wire is the sum of the sizes of its packets. */
module Wire {
  const ETHERNET_PREAMBLE_SIZE := 8
  const ETHERNET_HDR_SIZE := 14
  const MAX_ETHERNET_PAYLOAD_BYTES := 1500
  const MIN_ETHERNET_PAYLOAD_BYTES := 46
  const IP_HEADER_SIZE := 20
  const UDP_HEADER_SIZE := 8
  const ETHERNET_CRC_SIZE := 4
  const INTER_PKT_GAP := 12
  const FRAME_OVERHEAD: nat := ETHERNET_HDR_SIZE + ETHERNET_CRC_SIZE + ETHERNET_PREAMBLE_SIZE + INTER_PKT_GAP

  datatype PktType = REQUEST | GRANT | SCHED_DATA | UNSCHED_DATA

  function Min(a: int, b: int): int { if a <= b then a else b }
  function Max(a: int, b: int): int { if a >= b then a else b }

  /** Field widths are those of HomaPkt.msg; a grant carries no size tables. */
  function HeaderSize(t: PktType): nat {
    8 + match t
        case REQUEST => 4 + 2 + 4 + 4 + 4 * 2
        case UNSCHED_DATA => 4 + 2 + 4 + 4 + 4 * 2
        case GRANT => 2 + 4 + 2
        case SCHED_DATA => 4 + 4
  }

  /** Data bytes that fit in one packet with a header of `hdr` bytes. */
  function MaxData(hdr: nat): nat
    requires hdr < MAX_ETHERNET_PAYLOAD_BYTES - IP_HEADER_SIZE - UDP_HEADER_SIZE
  {
    MAX_ETHERNET_PAYLOAD_BYTES - IP_HEADER_SIZE - UDP_HEADER_SIZE - hdr
  }

  const MAX_UNSCHED: nat := MaxData(HeaderSize(UNSCHED_DATA))
  const MAX_SCHED: nat := MaxData(HeaderSize(SCHED_DATA))

  const MAX_FRAME: nat := MAX_ETHERNET_PAYLOAD_BYTES + FRAME_OVERHEAD

  /** Bytes on the wire of `numDataBytes` sent in full packets and one last packet: what
      the frames of those packets take, one after the other. */
  function BytesOnWireHdr(numDataBytes: nat, hdr: nat): nat
    requires hdr < MAX_ETHERNET_PAYLOAD_BYTES - IP_HEADER_SIZE - UDP_HEADER_SIZE
  {
    if numDataBytes > MaxData(hdr) then
      MAX_FRAME + BytesOnWireHdr(numDataBytes - MaxData(hdr), hdr)
    else
      Max(numDataBytes + hdr + IP_HEADER_SIZE + UDP_HEADER_SIZE, MIN_ETHERNET_PAYLOAD_BYTES) + FRAME_OVERHEAD
  }

  function BytesOnWire(numDataBytes: nat, t: PktType): nat {
    BytesOnWireHdr(numDataBytes, HeaderSize(t))
  }

  /** Full data packets carry 1442 and 1456 bytes and fill an Ethernet frame; nothing is
      shorter than the least frame, which is what a grant takes. */
  lemma PacketSizes(n: nat, t: PktType)
    ensures MAX_UNSCHED == 1442 && MAX_SCHED == 1456 && BytesOnWire(0, GRANT) == 84 <= BytesOnWire(n, t)
    ensures BytesOnWire(MAX_UNSCHED, UNSCHED_DATA) == BytesOnWire(MAX_SCHED, SCHED_DATA) == 1538
  {
  }

  /** getBytesOnWire computes the same number with one division. */
  method GetBytesOnWire(numDataBytes: nat, t: PktType) returns (bytesOnWire: nat)
    ensures bytesOnWire == BytesOnWire(numDataBytes, t)
  {
    var homaPktHdrSize := HeaderSize(t);
    var maxDataInHomaPkt := MAX_ETHERNET_PAYLOAD_BYTES - IP_HEADER_SIZE - UDP_HEADER_SIZE - homaPktHdrSize;
    bytesOnWire := 0;
    var numFullPkts: nat := numDataBytes / maxDataInHomaPkt;
    bytesOnWire := bytesOnWire + numFullPkts
      * (MAX_ETHERNET_PAYLOAD_BYTES + ETHERNET_HDR_SIZE + ETHERNET_CRC_SIZE + ETHERNET_PREAMBLE_SIZE + INTER_PKT_GAP);
    DivMod(numDataBytes, maxDataInHomaPkt);
    var numPartialBytes: nat := numDataBytes - numFullPkts * maxDataInHomaPkt;
    FullFrames(numFullPkts, numPartialBytes, homaPktHdrSize);
    if numFullPkts > 0 && numPartialBytes == 0 {
      return;
    }
    numPartialBytes := numPartialBytes + homaPktHdrSize + IP_HEADER_SIZE + UDP_HEADER_SIZE;
    if numPartialBytes < MIN_ETHERNET_PAYLOAD_BYTES {
      numPartialBytes := MIN_ETHERNET_PAYLOAD_BYTES;
    }
    var numPartialBytesOnWire :=
      numPartialBytes + ETHERNET_HDR_SIZE + ETHERNET_CRC_SIZE + ETHERNET_PREAMBLE_SIZE + INTER_PKT_GAP;
    bytesOnWire := bytesOnWire + numPartialBytesOnWire;
  }

  lemma DivMod(n: nat, d: nat)
    requires d > 0
    ensures 0 <= n - (n / d) * d < d
  {
    assert n == (n / d) * d + n % d;
  }

  lemma {:induction false} FullFrames(k: nat, r: nat, hdr: nat)
    requires hdr < MAX_ETHERNET_PAYLOAD_BYTES - IP_HEADER_SIZE - UDP_HEADER_SIZE
    requires r < MaxData(hdr)
    ensures k * MaxData(hdr) >= 0
    ensures k > 0 && r == 0 ==> BytesOnWireHdr(k * MaxData(hdr), hdr) == k * MAX_FRAME
    ensures !(k > 0 && r == 0) ==>
      BytesOnWireHdr(k * MaxData(hdr) + r, hdr) == k * MAX_FRAME + BytesOnWireHdr(r, hdr)
  {
    if k > 0 {
      FullFrames(k - 1, r, hdr);
      OneMore(k, MaxData(hdr));
      OneFrame((k - 1) * MaxData(hdr) + r, hdr);
    }
  }

  lemma OneMore(k: nat, d: nat)
    requires k > 0
    ensures k * d == (k - 1) * d + d && (k - 1) * d >= 0
    ensures k == 1 ==> (k - 1) * d == 0
  {
  }

  lemma OneFrame(n: nat, hdr: nat)
    requires hdr < MAX_ETHERNET_PAYLOAD_BYTES - IP_HEADER_SIZE - UDP_HEADER_SIZE
    ensures n > 0 ==> BytesOnWireHdr(n + MaxData(hdr), hdr) == MAX_FRAME + BytesOnWireHdr(n, hdr)
    ensures BytesOnWireHdr(MaxData(hdr), hdr) == MAX_FRAME
  {
  }

  function SumSeq(s: seq<nat>): nat {
    if s == [] then 0 else s[0] + SumSeq(s[1..])
  }

  /** The per-packet sum the receiver subtracts as packets arrive. */
  function WireOf(pkts: seq<nat>, hdr: nat): nat
    requires hdr < MAX_ETHERNET_PAYLOAD_BYTES - IP_HEADER_SIZE - UDP_HEADER_SIZE
  {
    if pkts == [] then 0 else BytesOnWireHdr(pkts[0], hdr) + WireOf(pkts[1..], hdr)
  }

  /** Every packet but the last is full and the last is neither empty nor oversized. */
  predicate Greedy(pkts: seq<nat>, max: nat) {
    && (forall i :: 0 <= i < |pkts| - 1 ==> pkts[i] == max)
    && (pkts != [] ==> 0 < pkts[|pkts| - 1] <= max)
  }

  lemma {:induction false} SumPositive(pkts: seq<nat>, max: nat)
    requires Greedy(pkts, max) && pkts != [] && max > 0
    ensures SumSeq(pkts) > 0
  {
    if |pkts| > 1 { SumPositive(pkts[1..], max); }
  }

  /** Greedy packetizing loses nothing: the wire size of the whole is the sum of the parts. */
  lemma {:induction false} GreedyWire(pkts: seq<nat>, hdr: nat)
    requires hdr < MAX_ETHERNET_PAYLOAD_BYTES - IP_HEADER_SIZE - UDP_HEADER_SIZE
    requires pkts != [] && Greedy(pkts, MaxData(hdr))
    ensures WireOf(pkts, hdr) == BytesOnWireHdr(SumSeq(pkts), hdr)
  {
    if |pkts| == 1 {
      assert pkts[1..] == [];
    } else {
      GreedyWire(pkts[1..], hdr);
      SumPositive(pkts[1..], MaxData(hdr));
    }
  }
}

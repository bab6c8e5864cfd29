/** Request and unscheduled packets of a message (UnschedByteAllocator.cc). */
module Packetize {
  import opened Arith
  import opened Wire

  datatype Result<+T> = Success(value: T) | ConfigError

  /** Unscheduled bytes are cut greedily into full packets. */
  function Chop(unschedData: nat, max: nat): (pkts: seq<nat>)
    requires max > 0
    ensures Greedy(pkts, max) && SumSeq(pkts) == unschedData
    ensures pkts == [] <==> unschedData == 0
  {
    if unschedData == 0 then []
    else
      var inPkt := Min(unschedData, max);
      var rest := Chop(unschedData - inPkt, max);
      assert ([inPkt] + rest)[1..] == rest;
      [inPkt] + rest
  }

  function ReqDataBytes(req: nat, msgSize: nat): nat { Min(req, msgSize) }

  function UnschedBytes(req: nat, unsched: nat, msgSize: nat): nat {
    if msgSize <= ReqDataBytes(req, msgSize) then 0
    else Min(msgSize - ReqDataBytes(req, msgSize), unsched)
  }

  /** Data bytes of the request packet followed by those of each unscheduled packet. */
  function PktSizes(req: nat, unsched: nat, msgSize: nat): seq<nat> {
    [ReqDataBytes(req, msgSize)] + Chop(UnschedBytes(req, unsched, msgSize), MAX_UNSCHED)
  }

  function TotalUnsched(req: nat, unsched: nat, msgSize: nat): nat { Min(msgSize, req + unsched) }

  lemma PktSizesSum(req: nat, unsched: nat, msgSize: nat)
    ensures SumSeq(PktSizes(req, unsched, msgSize)) == TotalUnsched(req, unsched, msgSize)
  {
    var pkts := PktSizes(req, unsched, msgSize);
    assert pkts[1..] == Chop(UnschedBytes(req, unsched, msgSize), MAX_UNSCHED);
  }

  lemma {:induction false} GreedyBounds(pkts: seq<nat>, max: nat, i: nat)
    requires max > 0 && Greedy(pkts, max) && i < |pkts|
    ensures 0 < pkts[i] <= max
  {
  }

  /** Only a zero-byte message has an empty packet, and then it is the only one. */
  lemma PktSizesBounds(req: nat, unsched: nat, msgSize: nat, i: nat)
    requires 1 <= req <= MAX_UNSCHED && i < |PktSizes(req, unsched, msgSize)|
    ensures PktSizes(req, unsched, msgSize)[i] <= MAX_UNSCHED
    ensures msgSize > 0 ==> PktSizes(req, unsched, msgSize)[i] > 0
    ensures msgSize == 0 ==> PktSizes(req, unsched, msgSize) == [0]
  {
    if i > 0 {
      GreedyBounds(Chop(UnschedBytes(req, unsched, msgSize), MAX_UNSCHED), MAX_UNSCHED, i - 1);
    }
  }

  lemma {:induction false} WireClosedForm(n: nat)
    requires n > 0
    ensures BytesOnWire(n, UNSCHED_DATA) == n + 96 * CeilDiv(n, MAX_UNSCHED)
  {
    if n > MAX_UNSCHED {
      WireClosedForm(n - MAX_UNSCHED);
    }
  }

  lemma {:induction false} WireOfClosedForm(pkts: seq<nat>)
    requires forall i :: 0 <= i < |pkts| ==> 0 < pkts[i] <= MAX_UNSCHED
    ensures WireOf(pkts, HeaderSize(UNSCHED_DATA)) == SumSeq(pkts) + 96 * |pkts|
  {
    if pkts != [] {
      WireOfClosedForm(pkts[1..]);
      WireClosedForm(pkts[0]);
    }
  }

  /** The receiver adds the wire size of the unscheduled bytes as a whole and subtracts
      it packet by packet; `Exact` says that the counter ends at zero. */
  predicate Exact(req: nat, unsched: nat, msgSize: nat) {
    WireOf(PktSizes(req, unsched, msgSize), HeaderSize(UNSCHED_DATA))
    == BytesOnWire(TotalUnsched(req, unsched, msgSize), UNSCHED_DATA)
  }

  /** The two agree exactly when the sender used the least
      possible number of packets. */
  lemma AccountingExactIff(req: nat, unsched: nat, msgSize: nat)
    requires 1 <= req <= MAX_UNSCHED && msgSize > 0
    ensures Exact(req, unsched, msgSize)
       <==> |PktSizes(req, unsched, msgSize)| == CeilDiv(TotalUnsched(req, unsched, msgSize), MAX_UNSCHED)
  {
    var pkts := PktSizes(req, unsched, msgSize);
    forall i | 0 <= i < |pkts|
      ensures 0 < pkts[i] <= MAX_UNSCHED
    {
      PktSizesBounds(req, unsched, msgSize, i);
    }
    PktSizesSum(req, unsched, msgSize);
    WireOfClosedForm(pkts);
    WireClosedForm(TotalUnsched(req, unsched, msgSize));
  }

  /** A configuration accounts exactly for messages of every size if and only if no
      unscheduled packet follows the request or the request payload is maximal. */
  predicate ExactConfig(req: nat, unsched: nat) { unsched == 0 || req == MAX_UNSCHED }

  lemma ExactForAllSizes(req: nat, unsched: nat)
    requires 1 <= req <= MAX_UNSCHED
    ensures ExactConfig(req, unsched) <==> forall msgSize: nat :: Exact(req, unsched, msgSize)
  {
    if ExactConfig(req, unsched) {
      forall msgSize: nat
        ensures Exact(req, unsched, msgSize)
      {
        ExactForSize(req, unsched, msgSize);
      }
    } else {
      var pkts := PktSizes(req, unsched, req + 1);
      assert Chop(1, MAX_UNSCHED) == [1];
      AccountingExactIff(req, unsched, req + 1);
      assert CeilDiv(req + 1, MAX_UNSCHED) == 1;
    }
  }

  lemma ExactForSize(req: nat, unsched: nat, msgSize: nat)
    requires 1 <= req <= MAX_UNSCHED && ExactConfig(req, unsched)
    ensures Exact(req, unsched, msgSize)
  {
    var pkts := PktSizes(req, unsched, msgSize);
    PktSizesSum(req, unsched, msgSize);
    if msgSize == 0 {
      assert pkts == [0];
    } else {
      PktSizesGreedy(req, unsched, msgSize);
      GreedyWire(pkts, HeaderSize(UNSCHED_DATA));
    }
  }

  lemma PktSizesGreedy(req: nat, unsched: nat, msgSize: nat)
    requires 1 <= req <= MAX_UNSCHED && ExactConfig(req, unsched) && msgSize > 0
    ensures Greedy(PktSizes(req, unsched, msgSize), MAX_UNSCHED)
  {
    var rest := Chop(UnschedBytes(req, unsched, msgSize), MAX_UNSCHED);
    var pkts := PktSizes(req, unsched, msgSize);
    forall i | 0 <= i < |pkts| - 1
      ensures pkts[i] == MAX_UNSCHED
    {
    }
  }

  /** Per-receiver tables are filled the first time a receiver is addressed; the only
      entry maps every size up to the largest one to the configured default. */
  class UnschedByteAllocator {
    var rxAddrReqbyteMap: map<nat, nat>
    var rxAddrUnschedbyteMap: map<nat, nat>
    const defaultReqBytes: nat
    const defaultUnschedBytes: nat

    ghost predicate Valid()
      reads this
    {
      && (forall a :: a in rxAddrReqbyteMap ==> rxAddrReqbyteMap[a] == defaultReqBytes <= MAX_UNSCHED)
      && (forall a :: a in rxAddrUnschedbyteMap ==> rxAddrUnschedbyteMap[a] == defaultUnschedBytes)
    }

    constructor (req: nat, unsched: nat)
      ensures Valid() && defaultReqBytes == req && defaultUnschedBytes == unsched
      ensures rxAddrReqbyteMap == map[] && rxAddrUnschedbyteMap == map[]
    {
      rxAddrReqbyteMap, rxAddrUnschedbyteMap := map[], map[];
      defaultReqBytes, defaultUnschedBytes := req, unsched;
    }

    method GetReqDataBytes(rxAddr: nat, msgSize: nat) returns (r: Result<nat>)
      requires Valid()
      modifies this`rxAddrReqbyteMap
      ensures Valid()
      ensures r == if defaultReqBytes > MAX_UNSCHED then ConfigError
                   else Success(ReqDataBytes(defaultReqBytes, msgSize))
      ensures rxAddrReqbyteMap == if r.ConfigError? then old(rxAddrReqbyteMap)
                                  else old(rxAddrReqbyteMap)[rxAddr := defaultReqBytes]
    {
      if rxAddr !in rxAddrReqbyteMap {
        if defaultReqBytes > MAX_UNSCHED {
          return ConfigError;
        }
        rxAddrReqbyteMap := rxAddrReqbyteMap[rxAddr := defaultReqBytes];
      }
      r := Success(Min(rxAddrReqbyteMap[rxAddr], msgSize));
    }

    method GetUnschedBytes(rxAddr: nat, msgSize: nat) returns (r: Result<nat>)
      requires Valid()
      modifies this`rxAddrReqbyteMap, this`rxAddrUnschedbyteMap
      ensures Valid()
      ensures r == if defaultReqBytes > MAX_UNSCHED then ConfigError
                   else Success(UnschedBytes(defaultReqBytes, defaultUnschedBytes, msgSize))
      ensures rxAddrUnschedbyteMap == old(rxAddrUnschedbyteMap)[rxAddr := defaultUnschedBytes]
    {
      if rxAddr !in rxAddrUnschedbyteMap {
        rxAddrUnschedbyteMap := rxAddrUnschedbyteMap[rxAddr := defaultUnschedBytes];
      }
      var req := GetReqDataBytes(rxAddr, msgSize);
      if req.ConfigError? {
        return ConfigError;
      }
      if msgSize <= req.value {
        return Success(0);
      }
      r := Success(Min(msgSize - req.value, rxAddrUnschedbyteMap[rxAddr]));
    }

    /** The list is never empty; a request default above the payload limit is an error. */
    method GetReqUnschedDataPkts(rxAddr: nat, msgSize: nat) returns (r: Result<seq<nat>>)
      requires Valid()
      modifies this`rxAddrReqbyteMap, this`rxAddrUnschedbyteMap
      ensures Valid()
      ensures r == if defaultReqBytes > MAX_UNSCHED then ConfigError
                   else Success(PktSizes(defaultReqBytes, defaultUnschedBytes, msgSize))
    {
      var req := GetReqDataBytes(rxAddr, msgSize);
      if req.ConfigError? {
        return ConfigError;
      }
      var pkts := [req.value];
      var u := GetUnschedBytes(rxAddr, msgSize);
      if u.ConfigError? {
        assert false;
      }
      var unschedData: nat := u.value;
      while unschedData > 0
        invariant pkts + Chop(unschedData, MAX_UNSCHED)
               == PktSizes(defaultReqBytes, defaultUnschedBytes, msgSize)
      {
        var unschedInPkt := Min(unschedData, MAX_UNSCHED);
        assert pkts + ([unschedInPkt] + Chop(unschedData - unschedInPkt, MAX_UNSCHED))
            == (pkts + [unschedInPkt]) + Chop(unschedData - unschedInPkt, MAX_UNSCHED);
        pkts := pkts + [unschedInPkt];
        unschedData := unschedData - unschedInPkt;
      }
      assert pkts + [] == pkts;
      r := Success(pkts);
    }
  }
}

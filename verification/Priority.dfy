/** Priorities of unscheduled and scheduled packets (PriorityResolver.cc). */
module Priority {
  import opened Wire

  const UINT32_MAX: nat := 0xFFFF_FFFF

  /** The resolution modes a configuration string can select; the string
      FIXED_UNSCHED selects CbfGraduated. */
  datatype PrioMode = CdfUniform | CbfUniform | CbfGraduated | Explicit

  predicate StrictlyIncreasing(c: seq<nat>) { forall i, j :: 0 <= i < j < |c| ==> c[i] < c[j] }

  predicate ValidCutOffs(c: seq<nat>) {
    c != [] && StrictlyIncreasing(c) && c[|c| - 1] == UINT32_MAX
  }

  /** Cutoff `k` is the first that is at least `bytes`. */
  predicate FirstReaching(cutOffs: seq<nat>, bytes: nat, k: nat) {
    k < |cutOffs| && bytes <= cutOffs[k] && forall i :: 0 <= i < k ==> cutOffs[i] < bytes
  }

  /** First cutoff that is at least `msgSize`. */
  function MesgPrio(cutOffs: seq<nat>, msgSize: nat): (p: nat)
    requires ValidCutOffs(cutOffs) && msgSize <= UINT32_MAX
    ensures p < |cutOffs| && msgSize <= cutOffs[p]
    ensures forall i :: 0 <= i < p ==> cutOffs[i] < msgSize
  {
    if msgSize <= cutOffs[0] then 0 else 1 + MesgPrio(cutOffs[1..], msgSize)
  }

  /** The binary search of the resolver. */
  method GetMesgPrio(cutOffs: seq<nat>, msgSize: nat) returns (prio: nat)
    requires ValidCutOffs(cutOffs) && msgSize <= UINT32_MAX
    ensures prio == MesgPrio(cutOffs, msgSize)
  {
    var low, high: nat := 0, |cutOffs| - 1;
    while low < high
      invariant 0 <= low <= high < |cutOffs|
      invariant low <= MesgPrio(cutOffs, msgSize) <= high
    {
      var mid := (high + low) / 2;
      if msgSize <= cutOffs[mid] {
        high := mid;
      } else {
        low := mid + 1;
      }
    }
    prio := high;
  }

  lemma MesgPrioMonotone(cutOffs: seq<nat>, a: nat, b: nat)
    requires ValidCutOffs(cutOffs) && a <= b <= UINT32_MAX
    ensures MesgPrio(cutOffs, a) <= MesgPrio(cutOffs, b)
  {
    assert b <= cutOffs[MesgPrio(cutOffs, b)];
  }

  /** Priority of a scheduled packet as far as the resolver is concerned. */
  function SchedPktPrio(mode: PrioMode, cutOffs: seq<nat>, boostTail: nat, allPrio: nat,
                        msgSize: nat, bytesToGrant: nat): nat
    requires ValidCutOffs(cutOffs) && allPrio > 0
    requires bytesToGrant <= msgSize <= UINT32_MAX
  {
    if BytesOnWire(bytesToGrant, SCHED_DATA) < boostTail then
      match mode
      case Explicit => MesgPrio(cutOffs, bytesToGrant)
      case CbfGraduated => MesgPrio(cutOffs, bytesToGrant)
      case CdfUniform => MesgPrio(cutOffs, msgSize)
      case CbfUniform => MesgPrio(cutOffs, msgSize)
    else allPrio - 1
  }

  predicate Graduated(mode: PrioMode) { mode.Explicit? || mode.CbfGraduated? }

  /** Bytes of the message not yet packetized before packet `i`. */
  function RemainingBefore(msgSize: nat, pkts: seq<nat>, i: nat): int
    requires i <= |pkts|
  {
    msgSize - SumSeq(pkts[..i])
  }

  function UnschedPrio(mode: PrioMode, cutOffs: seq<nat>, msgSize: nat, pkts: seq<nat>, i: nat): nat
    requires ValidCutOffs(cutOffs) && msgSize <= UINT32_MAX && i <= |pkts|
    requires SumSeq(pkts[..i]) <= msgSize
  {
    MesgPrio(cutOffs, if Graduated(mode) then RemainingBefore(msgSize, pkts, i) else msgSize)
  }

  lemma {:induction false} SumSeqAppend(s: seq<nat>, x: nat)
    ensures SumSeq(s + [x]) == SumSeq(s) + x
  {
    if s == [] {
      assert s + [x] == [x];
    } else {
      assert (s + [x])[1..] == s[1..] + [x];
      SumSeqAppend(s[1..], x);
    }
  }

  lemma SumSeqStep(s: seq<nat>, n: nat)
    requires 0 < n <= |s|
    ensures SumSeq(s[..n]) == SumSeq(s[..n - 1]) + s[n - 1]
  {
    assert s[..n] == s[..n - 1] + [s[n - 1]];
    SumSeqAppend(s[..n - 1], s[n - 1]);
  }

  lemma {:induction false} SumSeqPrefix(s: seq<nat>, i: nat, j: nat)
    requires i <= j <= |s|
    ensures SumSeq(s[..i]) <= SumSeq(s[..j])
    decreases j
  {
    if i < j {
      SumSeqPrefix(s, i, j - 1);
      SumSeqStep(s, j);
    }
  }

  lemma SumSeqPrefixes(s: seq<nat>)
    ensures forall i :: 0 <= i <= |s| ==> SumSeq(s[..i]) <= SumSeq(s)
  {
    forall i | 0 <= i <= |s|
      ensures SumSeq(s[..i]) <= SumSeq(s)
    {
      SumSeqPrefix(s, i, |s|);
      assert s[..|s|] == s;
    }
  }

  function UnschedPktsPrio(mode: PrioMode, cutOffs: seq<nat>, msgSize: nat, pkts: seq<nat>): (prios: seq<nat>)
    requires ValidCutOffs(cutOffs) && SumSeq(pkts) <= msgSize <= UINT32_MAX
    ensures |prios| == |pkts|
  {
    SumSeqPrefixes(pkts);
    seq(|pkts|, i requires 0 <= i < |pkts| => UnschedPrio(mode, cutOffs, msgSize, pkts, i))
  }

  /** The priority of packet `i`: in the graduated and the explicit mode that of the bytes
      left to packetize, in the uniform modes that of the whole message. */
  predicate PrioOfPkt(mode: PrioMode, cutOffs: seq<nat>, msgSize: nat, pkts: seq<nat>, i: nat, prio: nat)
    requires i <= |pkts|
  {
    match mode
    case Explicit => SumSeq(pkts[..i]) <= msgSize && FirstReaching(cutOffs, msgSize - SumSeq(pkts[..i]), prio)
    case CbfGraduated => SumSeq(pkts[..i]) <= msgSize && FirstReaching(cutOffs, msgSize - SumSeq(pkts[..i]), prio)
    case CdfUniform => FirstReaching(cutOffs, msgSize, prio)
    case CbfUniform => FirstReaching(cutOffs, msgSize, prio)
  }

  lemma UnschedPrioMeans(mode: PrioMode, cutOffs: seq<nat>, msgSize: nat, pkts: seq<nat>, i: nat)
    requires ValidCutOffs(cutOffs) && SumSeq(pkts) <= msgSize <= UINT32_MAX && i < |pkts|
    ensures PrioOfPkt(mode, cutOffs, msgSize, pkts, i, UnschedPktsPrio(mode, cutOffs, msgSize, pkts)[i])
  {
    SumSeqPrefixes(pkts);
    var left := if Graduated(mode) then msgSize - SumSeq(pkts[..i]) else msgSize;
    assert FirstReaching(cutOffs, left, MesgPrio(cutOffs, left));
  }

  lemma UnschedPriosMean(mode: PrioMode, cutOffs: seq<nat>, msgSize: nat, pkts: seq<nat>)
    requires ValidCutOffs(cutOffs) && SumSeq(pkts) <= msgSize <= UINT32_MAX
    ensures var prios := UnschedPktsPrio(mode, cutOffs, msgSize, pkts);
      forall i :: 0 <= i < |pkts| ==> PrioOfPkt(mode, cutOffs, msgSize, pkts, i, prios[i])
  {
    var prios := UnschedPktsPrio(mode, cutOffs, msgSize, pkts);
    forall i | 0 <= i < |pkts|
      ensures PrioOfPkt(mode, cutOffs, msgSize, pkts, i, prios[i])
    {
      UnschedPrioMeans(mode, cutOffs, msgSize, pkts, i);
    }
  }

  /** getUnschedPktsPrio */
  method GetUnschedPktsPrio(mode: PrioMode, cutOffs: seq<nat>, msgSize: nat, pkts: seq<nat>) returns (prios: seq<nat>)
    requires ValidCutOffs(cutOffs) && SumSeq(pkts) <= msgSize <= UINT32_MAX
    ensures prios == UnschedPktsPrio(mode, cutOffs, msgSize, pkts)
    ensures forall i :: 0 <= i < |pkts| ==> PrioOfPkt(mode, cutOffs, msgSize, pkts, i, prios[i])
  {
    UnschedPriosMean(mode, cutOffs, msgSize, pkts);
    if mode.Explicit? || mode.CbfGraduated? {
      prios := GraduatedPrios(mode, cutOffs, msgSize, pkts);
    } else {
      var prio := GetMesgPrio(cutOffs, msgSize);
      prios := seq(|pkts|, i => prio);
    }
  }

  /** The loop over the packets. */
  method GraduatedPrios(mode: PrioMode, cutOffs: seq<nat>, msgSize: nat, pkts: seq<nat>) returns (prios: seq<nat>)
    requires ValidCutOffs(cutOffs) && SumSeq(pkts) <= msgSize <= UINT32_MAX && Graduated(mode)
    ensures prios == UnschedPktsPrio(mode, cutOffs, msgSize, pkts)
  {
    ghost var all := UnschedPktsPrio(mode, cutOffs, msgSize, pkts);
    SumSeqPrefixes(pkts);
    prios := [];
    var left: nat := msgSize;
    while |prios| < |pkts|
      invariant |prios| <= |pkts| && left == msgSize - SumSeq(pkts[..|prios|])
      invariant prios == all[..|prios|]
    {
      SumSeqStep(pkts, |prios| + 1);
      var prio := GetMesgPrio(cutOffs, left);
      left := left - pkts[|prios|];
      prios := prios + [prio];
    }
  }

  predicate NonIncreasing(s: seq<nat>) { forall i, j :: 0 <= i <= j < |s| ==> s[j] <= s[i] }

  /** Later packets of a message never travel at a numerically higher (worse) level. */
  lemma UnschedPriosMonotone(mode: PrioMode, cutOffs: seq<nat>, msgSize: nat, pkts: seq<nat>)
    requires ValidCutOffs(cutOffs) && SumSeq(pkts) <= msgSize <= UINT32_MAX
    ensures NonIncreasing(UnschedPktsPrio(mode, cutOffs, msgSize, pkts))
    ensures forall i :: 0 <= i < |pkts| ==> UnschedPktsPrio(mode, cutOffs, msgSize, pkts)[i] < |cutOffs|
  {
    SumSeqPrefixes(pkts);
    var prios := UnschedPktsPrio(mode, cutOffs, msgSize, pkts);
    forall i, j | 0 <= i <= j < |prios|
      ensures prios[j] <= prios[i]
    {
      LaterIsLower(mode, cutOffs, msgSize, pkts, i, j);
    }
  }

  lemma LaterIsLower(mode: PrioMode, cutOffs: seq<nat>, msgSize: nat, pkts: seq<nat>, i: nat, j: nat)
    requires ValidCutOffs(cutOffs) && i <= j < |pkts|
    requires SumSeq(pkts[..i]) <= msgSize <= UINT32_MAX && SumSeq(pkts[..j]) <= msgSize
    ensures UnschedPrio(mode, cutOffs, msgSize, pkts, j) <= UnschedPrio(mode, cutOffs, msgSize, pkts, i)
  {
    SumSeqPrefix(pkts, i, j);
    if Graduated(mode) {
      MesgPrioMonotone(cutOffs, RemainingBefore(msgSize, pkts, j), RemainingBefore(msgSize, pkts, i));
    }
  }

  /** One element of the table a request or unscheduled packet carries. */
  datatype PrioBytes = PrioBytes(prio: nat, bytes: nat)

  predicate Merges(t: seq<PrioBytes>, p: nat) { t != [] && t[|t| - 1].prio == p }

  /** One more packet: its bytes go into the last element if that has its priority. */
  function Extended(t: seq<PrioBytes>, p: nat, bytes: nat): seq<PrioBytes> {
    if Merges(t, p) then t[..|t| - 1] + [PrioBytes(p, t[|t| - 1].bytes + bytes)] else t + [PrioBytes(p, bytes)]
  }

  /** Consecutive packets of one priority share an element. */
  function Group(prios: seq<nat>, lens: seq<nat>, n: nat): seq<PrioBytes>
    requires n <= |prios| == |lens|
  {
    if n == 0 then [] else Extended(Group(prios, lens, n - 1), prios[n - 1], lens[n - 1])
  }

  /** Table for the receiver: the bytes still to come besides this packet's own; the
      element is dropped when nothing is left in it. */
  function OthersTable(t: seq<PrioBytes>, prio: nat, len: nat): seq<PrioBytes> {
    if t == [] then []
    else if t[0].prio == prio then
      if t[0].bytes <= len then t[1..] else [PrioBytes(prio, t[0].bytes - len)] + t[1..]
    else [t[0]] + OthersTable(t[1..], prio, len)
  }

  /** Wire bytes a table announces at priority `p`. */
  function TableWire(t: seq<PrioBytes>, p: nat): nat {
    if t == [] then 0
    else (if t[0].prio == p then BytesOnWire(t[0].bytes, UNSCHED_DATA) else 0) + TableWire(t[1..], p)
  }

  /** Data bytes of the first `n` packets at priority `p`, leaving out packet `skip`. */
  function BytesAt(prios: seq<nat>, lens: seq<nat>, n: nat, skip: int, p: nat): nat
    requires n <= |prios| == |lens|
  {
    if n == 0 then 0
    else BytesAt(prios, lens, n - 1, skip, p)
         + if prios[n - 1] == p && n - 1 != skip then lens[n - 1] else 0
  }

  /** Wire bytes of the same packets, packet by packet. */
  function WireAt(prios: seq<nat>, lens: seq<nat>, n: nat, skip: int, p: nat): nat
    requires n <= |prios| == |lens|
  {
    if n == 0 then 0
    else WireAt(prios, lens, n - 1, skip, p)
         + if prios[n - 1] == p && n - 1 != skip then BytesOnWire(lens[n - 1], UNSCHED_DATA) else 0
  }

  predicate StrictlyDecreasingPrio(t: seq<PrioBytes>) {
    forall i, j :: 0 <= i < j < |t| ==> t[j].prio < t[i].prio
  }

  lemma {:induction false} GroupShape(prios: seq<nat>, lens: seq<nat>, n: nat)
    requires n <= |prios| == |lens| && NonIncreasing(prios)
    ensures var t := Group(prios, lens, n);
      && StrictlyDecreasingPrio(t)
      && (t == [] <==> n == 0)
      && (n > 0 ==> t[|t| - 1].prio == prios[n - 1])
  {
    if n > 0 {
      GroupShape(prios, lens, n - 1);
      ExtendedShape(Group(prios, lens, n - 1), prios[n - 1], lens[n - 1]);
    }
  }

  lemma ExtendedShape(t: seq<PrioBytes>, p: nat, bytes: nat)
    requires StrictlyDecreasingPrio(t) && (t != [] ==> p <= t[|t| - 1].prio)
    ensures var t' := Extended(t, p, bytes); StrictlyDecreasingPrio(t') && t' != [] && t'[|t'| - 1].prio == p
  {
  }

  lemma ExtendedAt(t: seq<PrioBytes>, p: nat, bytes: nat, k: nat)
    requires k < |t|
    ensures k < |Extended(t, p, bytes)| && Extended(t, p, bytes)[k].prio == t[k].prio
  {
  }

  /** Runs do not recur, so an element holds all the bytes of its priority. */
  lemma {:induction false} GroupBytes(prios: seq<nat>, lens: seq<nat>, n: nat, k: nat)
    requires n <= |prios| == |lens| && NonIncreasing(prios)
    requires k < |Group(prios, lens, n)|
    ensures Group(prios, lens, n)[k].bytes == BytesAt(prios, lens, n, -1, Group(prios, lens, n)[k].prio)
  {
    if n == 0 { return; }
    var t, t' := Group(prios, lens, n - 1), Group(prios, lens, n);
    var p := prios[n - 1];
    GroupShape(prios, lens, n);
    if k < |t'| - 1 {
      assert t'[k] == t[k];
      GroupBytes(prios, lens, n - 1, k);
    } else {
      assert t'[k].prio == p;
      if Merges(t, p) {
        GroupBytes(prios, lens, n - 1, |t| - 1);
      } else {
        NewRun(prios, lens, n);
      }
    }
  }

  lemma NewRun(prios: seq<nat>, lens: seq<nat>, n: nat)
    requires 0 < n <= |prios| == |lens| && NonIncreasing(prios)
    requires !Merges(Group(prios, lens, n - 1), prios[n - 1])
    ensures BytesAt(prios, lens, n - 1, -1, prios[n - 1]) == 0
  {
    GroupShape(prios, lens, n - 1);
    if n > 1 {
      assert prios[n - 1] < prios[n - 2];
      forall j | 0 <= j < n - 1
        ensures prios[j] != prios[n - 1]
      {
        assert prios[n - 2] <= prios[j];
      }
    }
    NothingAt(prios, lens, n - 1, -1, prios[n - 1]);
  }

  lemma {:induction false} NothingAt(prios: seq<nat>, lens: seq<nat>, n: nat, skip: int, p: nat)
    requires n <= |prios| == |lens|
    requires forall j :: 0 <= j < n ==> prios[j] != p
    ensures BytesAt(prios, lens, n, skip, p) == 0 == WireAt(prios, lens, n, skip, p)
  {
    if n > 0 { NothingAt(prios, lens, n - 1, skip, p); }
  }

  lemma {:induction false} ElementFor(prios: seq<nat>, lens: seq<nat>, n: nat, j: nat) returns (k: nat)
    requires j < n <= |prios| == |lens| && NonIncreasing(prios)
    ensures k < |Group(prios, lens, n)| && Group(prios, lens, n)[k].prio == prios[j]
  {
    if j < n - 1 {
      k := ElementFor(prios, lens, n - 1, j);
      ExtendedAt(Group(prios, lens, n - 1), prios[n - 1], lens[n - 1], k);
    } else {
      GroupShape(prios, lens, n);
      k := |Group(prios, lens, n)| - 1;
    }
  }

  lemma {:induction false} SkipOwn(prios: seq<nat>, lens: seq<nat>, n: nat, skip: nat, p: nat)
    requires n <= |prios| == |lens| && skip < |lens|
    ensures BytesAt(prios, lens, n, -1, p)
         == BytesAt(prios, lens, n, skip, p) + if skip < n && prios[skip] == p then lens[skip] else 0
  {
    if n > 0 { SkipOwn(prios, lens, n - 1, skip, p); }
  }

  /** `k` full packets and one more packet of `r` bytes. */
  lemma {:induction false} FullPacketsThen(k: nat, r: nat)
    requires 0 < r <= MAX_UNSCHED
    ensures BytesOnWire(k * MAX_UNSCHED + r, UNSCHED_DATA)
         == k * BytesOnWire(MAX_UNSCHED, UNSCHED_DATA) + BytesOnWire(r, UNSCHED_DATA)
  {
    if k > 0 {
      FullPacketsThen(k - 1, r);
    }
  }

  /** All but the last packet of the message are full, hence so are those at one level. */
  lemma {:induction false} WireAtIsWhole(prios: seq<nat>, lens: seq<nat>, n: nat, skip: int, p: nat) returns (k: nat)
    requires n <= |prios| == |lens| && Greedy(lens, MAX_UNSCHED)
    ensures n < |lens| ==> BytesAt(prios, lens, n, skip, p) == k * MAX_UNSCHED
    ensures n < |lens| ==> WireAt(prios, lens, n, skip, p) == k * BytesOnWire(MAX_UNSCHED, UNSCHED_DATA)
    ensures WireAt(prios, lens, n, skip, p) == WireOrNone(BytesAt(prios, lens, n, skip, p))
  {
    if n == 0 {
      k := 0;
    } else {
      k := WireAtIsWhole(prios, lens, n - 1, skip, p);
      FullPacketsThen(k, lens[n - 1]);
      if prios[n - 1] == p && n - 1 != skip { k := k + 1; }
    }
  }

  function WireOrNone(bytes: nat): nat { if bytes == 0 then 0 else BytesOnWire(bytes, UNSCHED_DATA) }

  /** A table announces nothing at a level that it has no element for. */
  lemma {:induction false} OthersNone(t: seq<PrioBytes>, prio: nat, len: nat, p: nat)
    requires forall j :: 0 <= j < |t| ==> t[j].prio != p
    ensures TableWire(t, p) == 0 == TableWire(OthersTable(t, prio, len), p)
  {
    if t != [] {
      OthersNone(t[1..], prio, len, p);
    }
  }

  /** An element contributes its wire size at its own level. */
  lemma {:induction false} TableWireAt(t: seq<PrioBytes>, k: nat)
    requires StrictlyDecreasingPrio(t) && k < |t|
    ensures TableWire(t, t[k].prio) == BytesOnWire(t[k].bytes, UNSCHED_DATA)
  {
    if k > 0 {
      TableWireAt(t[1..], k - 1);
    } else {
      OthersNone(t[1..], 0, 0, t[0].prio);
    }
  }

  /** Whichever unscheduled packet arrives first, its table announces at every priority
      exactly the wire bytes of the other packets of that priority. */
  lemma TableIsExact(prios: seq<nat>, lens: seq<nat>, i: nat, p: nat)
    requires |prios| == |lens| && NonIncreasing(prios) && i < |lens|
    requires Greedy(lens, MAX_UNSCHED) || lens == [0]
    ensures TableWire(OthersTable(Group(prios, lens, |lens|), prios[i], lens[i]), p)
         == WireAt(prios, lens, |lens|, i, p)
  {
    if lens == [0] {
      assert Group(prios, lens, 0) == [];
      assert Group(prios, lens, 1) == [PrioBytes(prios[0], 0)];
      assert OthersTable(Group(prios, lens, 1), prios[0], 0) == [];
      assert WireAt(prios, lens, 0, i, p) == 0;
    } else if j :| 0 <= j < |lens| && prios[j] == p {
      TableIsExactAt(prios, lens, i, j);
    } else {
      TableIsExactElsewhere(prios, lens, i, p);
    }
  }

  lemma TableIsExactAt(prios: seq<nat>, lens: seq<nat>, i: nat, j: nat)
    requires |prios| == |lens| && NonIncreasing(prios) && i < |lens| && j < |lens|
    requires Greedy(lens, MAX_UNSCHED)
    ensures TableWire(OthersTable(Group(prios, lens, |lens|), prios[i], lens[i]), prios[j])
         == WireAt(prios, lens, |lens|, i, prios[j])
  {
    var n, p := |lens|, prios[j];
    TableIsWhole(prios, lens, i, j);
    var _ := WireAtIsWhole(prios, lens, n, i, p);
  }

  lemma TableIsWhole(prios: seq<nat>, lens: seq<nat>, i: nat, j: nat)
    requires |prios| == |lens| && NonIncreasing(prios) && i < |lens| && j < |lens|
    requires Greedy(lens, MAX_UNSCHED)
    ensures TableWire(OthersTable(Group(prios, lens, |lens|), prios[i], lens[i]), prios[j])
         == WireOrNone(BytesAt(prios, lens, |lens|, i, prios[j]))
  {
    var own, k := OwnAndOther(prios, lens, i, j);
    OthersWire(Group(prios, lens, |lens|), own, k, lens[i]);
  }

  /** The elements of packets `i` and `j`, and what is left at `j`'s level without `i`. */
  lemma OwnAndOther(prios: seq<nat>, lens: seq<nat>, i: nat, j: nat) returns (own: nat, k: nat)
    requires |prios| == |lens| && NonIncreasing(prios) && i < |lens| && j < |lens|
    requires Greedy(lens, MAX_UNSCHED)
    ensures var t := Group(prios, lens, |lens|);
      && StrictlyDecreasingPrio(t)
      && own < |t| && k < |t| && t[own].prio == prios[i] && t[k].prio == prios[j]
      && t[k].bytes > 0
      && (k == own ==> lens[i] <= t[k].bytes && BytesAt(prios, lens, |lens|, i, prios[j]) == t[k].bytes - lens[i])
      && (k != own ==> BytesAt(prios, lens, |lens|, i, prios[j]) == t[k].bytes)
  {
    var n := |lens|;
    GroupShape(prios, lens, n);
    own := ElementFor(prios, lens, n, i);
    k := ElementFor(prios, lens, n, j);
    GroupBytes(prios, lens, n, k);
    SkipOwn(prios, lens, n, i, prios[j]);
    PositiveAt(prios, lens, n, j);
  }

  lemma TableIsExactElsewhere(prios: seq<nat>, lens: seq<nat>, i: nat, p: nat)
    requires |prios| == |lens| && i < |lens|
    requires forall j :: 0 <= j < |lens| ==> prios[j] != p
    ensures TableWire(OthersTable(Group(prios, lens, |lens|), prios[i], lens[i]), p)
         == 0 == WireAt(prios, lens, |lens|, i, p)
  {
    NothingAt(prios, lens, |lens|, i, p);
    NoElement(prios, lens, |lens|, p);
    OthersNone(Group(prios, lens, |lens|), prios[i], lens[i], p);
  }

  lemma {:induction false} NoElement(prios: seq<nat>, lens: seq<nat>, n: nat, p: nat)
    requires n <= |prios| == |lens|
    requires forall j :: 0 <= j < n ==> prios[j] != p
    ensures forall k :: 0 <= k < |Group(prios, lens, n)| ==> Group(prios, lens, n)[k].prio != p
  {
    if n > 0 { NoElement(prios, lens, n - 1, p); }
  }

  lemma {:induction false} PositiveAt(prios: seq<nat>, lens: seq<nat>, n: nat, j: nat)
    requires j < n <= |prios| == |lens| && Greedy(lens, MAX_UNSCHED)
    ensures BytesAt(prios, lens, n, -1, prios[j]) > 0
  {
    if j < n - 1 { PositiveAt(prios, lens, n - 1, j); }
  }

  /** What the table announces at the level of element `k` once packet bytes are taken
      out of element `own`. */
  lemma OthersWire(t: seq<PrioBytes>, own: nat, k: nat, len: nat)
    requires StrictlyDecreasingPrio(t) && own < |t| && k < |t| && t[k].bytes > 0
    requires k == own ==> len <= t[k].bytes
    ensures TableWire(OthersTable(t, t[own].prio, len), t[k].prio)
         == WireOrNone(if k == own then t[k].bytes - len else t[k].bytes)
  {
    if k == own {
      OwnWire(t, own, len);
    } else {
      OtherWire(t, own, k, len);
    }
  }

  lemma {:induction false} OwnWire(t: seq<PrioBytes>, own: nat, len: nat)
    requires StrictlyDecreasingPrio(t) && own < |t| && len <= t[own].bytes
    ensures TableWire(OthersTable(t, t[own].prio, len), t[own].prio) == WireOrNone(t[own].bytes - len)
  {
    if own > 0 {
      assert t[own].prio < t[0].prio;
      OwnWire(t[1..], own - 1, len);
    } else {
      OthersNone(t[1..], t[0].prio, len, t[0].prio);
    }
  }

  lemma {:induction false} OtherWire(t: seq<PrioBytes>, own: nat, k: nat, len: nat)
    requires StrictlyDecreasingPrio(t) && own < |t| && k < |t| && k != own
    ensures TableWire(OthersTable(t, t[own].prio, len), t[k].prio) == BytesOnWire(t[k].bytes, UNSCHED_DATA)
  {
    assert t[own].prio != t[k].prio;
    if own == 0 {
      TableWireAt(t[1..], k - 1);
    } else if k == 0 {
      OthersNone(t[1..], t[own].prio, len, t[0].prio);
    } else {
      OtherWire(t[1..], own - 1, k - 1, len);
    }
  }

  // ---- bytes of data in the tables ----

  /** Data bytes a table announces. */
  function TableBytes(t: seq<PrioBytes>): nat { if t == [] then 0 else t[0].bytes + TableBytes(t[1..]) }

  lemma {:induction false} TableBytesAppend(t: seq<PrioBytes>, e: PrioBytes)
    ensures TableBytes(t + [e]) == TableBytes(t) + e.bytes
  {
    if t == [] {
      assert t + [e] == [e];
    } else {
      assert (t + [e])[1..] == t[1..] + [e];
      TableBytesAppend(t[1..], e);
    }
  }

  lemma {:induction false} GroupTotal(prios: seq<nat>, lens: seq<nat>, n: nat)
    requires n <= |prios| == |lens|
    ensures TableBytes(Group(prios, lens, n)) == SumSeq(lens[..n])
  {
    if n > 0 {
      var t := Group(prios, lens, n - 1);
      GroupTotal(prios, lens, n - 1);
      SumSeqStep(lens, n);
      ExtendedTotal(t, prios[n - 1], lens[n - 1]);
    }
  }

  lemma ExtendedTotal(t: seq<PrioBytes>, p: nat, bytes: nat)
    ensures TableBytes(Extended(t, p, bytes)) == TableBytes(t) + bytes
  {
    if Merges(t, p) {
      var init, last := t[..|t| - 1], t[|t| - 1];
      assert t == init + [last];
      LastRaised(init, last, PrioBytes(p, last.bytes + bytes));
    } else {
      TableBytesAppend(t, PrioBytes(p, bytes));
    }
  }

  lemma LastRaised(init: seq<PrioBytes>, last: PrioBytes, e: PrioBytes)
    ensures TableBytes(init + [e]) == TableBytes(init + [last]) - last.bytes + e.bytes
  {
    TableBytesAppend(init, last);
    TableBytesAppend(init, e);
  }

  lemma {:induction false} OthersTotal(t: seq<PrioBytes>, k: nat, len: nat)
    requires StrictlyDecreasingPrio(t) && k < |t| && len <= t[k].bytes
    ensures TableBytes(OthersTable(t, t[k].prio, len)) == TableBytes(t) - len
  {
    if k > 0 {
      OthersTotal(t[1..], k - 1, len);
    }
  }

  lemma {:induction false} OwnBytes(prios: seq<nat>, lens: seq<nat>, n: nat, i: nat)
    requires i < n <= |prios| == |lens|
    ensures lens[i] <= BytesAt(prios, lens, n, -1, prios[i])
  {
    if i < n - 1 { OwnBytes(prios, lens, n - 1, i); }
  }

  /** The entries of a packet's table add up to all unscheduled bytes but its own. */
  lemma TableSumsToRest(prios: seq<nat>, lens: seq<nat>, i: nat)
    requires |prios| == |lens| && NonIncreasing(prios) && i < |lens|
    ensures TableBytes(OthersTable(Group(prios, lens, |lens|), prios[i], lens[i])) == SumSeq(lens) - lens[i]
  {
    var n := |lens|;
    GroupTotal(prios, lens, n);
    assert lens[..n] == lens;
    GroupShape(prios, lens, n);
    var k := ElementFor(prios, lens, n, i);
    GroupBytes(prios, lens, n, k);
    OwnBytes(prios, lens, n, i);
    OthersTotal(Group(prios, lens, n), k, lens[i]);
  }
}

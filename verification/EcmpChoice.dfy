/** Which of the collected routes a flow takes: sorted by gateway, one route a gateway, the
    one at the flow's hash.  The gateway depends on the set of gateways alone. */
module EcmpChoice {
  import opened Wrappers
  import opened Bits
  import opened RouteOrder
  import opened Ecmp
  import Murmur

  type FlowBin = seq<Byte>

  // ---- the flow encoders ----

  /** `n` bytes of a number, least significant first. */
  function Bytes(x: nat, n: nat): (b: seq<Byte>)
    ensures |b| == n
  {
    if n == 0 then [] else [x % 256] + Bytes(x / 256, n - 1)
  }

  function DestFlow(dest: Address): FlowBin { Bytes(dest, 4) }

  function SrcDestFlow(src: Address, dest: Address): FlowBin { Bytes(src, 4) + Bytes(dest, 4) }

  function MessageFlow(src: Address, dest: Address, msgId: nat): FlowBin {
    Bytes(src, 4) + Bytes(dest, 4) + Bytes(msgId, 8)
  }

  function PortFlow(src: Address, srcPort: nat, dest: Address, destPort: nat): FlowBin {
    Bytes(src, 4) + Bytes(srcPort, 2) + Bytes(dest, 4) + Bytes(destPort, 2)
  }

  /** The destination inside a flow's bytes: their number tells which encoder made them. */
  function DestOf(flow: FlowBin): Address {
    if |flow| == 4 then LittleAddress(flow)
    else if |flow| == 12 then LittleAddress(flow[6..10])
    else if |flow| == 8 || |flow| == 16 then LittleAddress(flow[4..8])
    else 0
  }

  function LittleAddress(b: seq<Byte>): Address
    requires |b| == 4
  {
    Murmur.LittleWord(b);
    Murmur.Little(b)
  }

  lemma {:induction false} BytesBack(x: nat, n: nat)
    requires x < Pow2(8 * n)
    ensures Murmur.Little(Bytes(x, n)) == x
  {
    if n > 0 {
      Murmur.ByteMore(8 * (n - 1));
      BytesBack(x / 256, n - 1);
      assert Bytes(x, n)[1..] == Bytes(x / 256, n - 1);
    }
  }

  /** No two flows to different destinations have the same cache key. */
  lemma FlowsTellDestination(src: Address, dest: Address, msgId: nat, srcPort: nat, destPort: nat)
    ensures DestOf(DestFlow(dest)) == dest
    ensures DestOf(SrcDestFlow(src, dest)) == dest
    ensures DestOf(MessageFlow(src, dest, msgId)) == dest
    ensures DestOf(PortFlow(src, srcPort, dest, destPort)) == dest
  {
    Pow2Word();
    BytesBack(dest, 4);
    assert SrcDestFlow(src, dest)[4..8] == Bytes(dest, 4);
    assert MessageFlow(src, dest, msgId)[4..8] == Bytes(dest, 4);
    assert PortFlow(src, srcPort, dest, destPort)[6..10] == Bytes(dest, 4);
  }

  /** Everything that goes into a cache key can be read back from it, little-endian, so keys
      made by one encoder are equal only for equal arguments; the length tells the encoder. */
  lemma EndsTold(src: Address, dest: Address)
    ensures |DestFlow(dest)| == 4 && Murmur.Little(DestFlow(dest)) == dest
    ensures var f := SrcDestFlow(src, dest);
            |f| == 8 && Murmur.Little(f[..4]) == src && Murmur.Little(f[4..]) == dest
  {
    AddressBack(src);
    AddressBack(dest);
    Halves(Bytes(src, 4), Bytes(dest, 4));
  }

  lemma MessageTold(src: Address, dest: Address, msgId: nat)
    requires msgId < Pow2(64)
    ensures var f := MessageFlow(src, dest, msgId);
            && |f| == 16 && Murmur.Little(f[..4]) == src && Murmur.Little(f[4..8]) == dest
            && Murmur.Little(f[8..]) == msgId
  {
    AddressBack(src);
    AddressBack(dest);
    BytesBack(msgId, 8);
    Thirds(Bytes(src, 4), Bytes(dest, 4), Bytes(msgId, 8));
  }

  lemma PortsTold(src: Address, srcPort: nat, dest: Address, destPort: nat)
    requires srcPort < Pow2(16) && destPort < Pow2(16)
    ensures var f := PortFlow(src, srcPort, dest, destPort);
            && |f| == 12 && Murmur.Little(f[..4]) == src && Murmur.Little(f[4..6]) == srcPort
            && Murmur.Little(f[6..10]) == dest && Murmur.Little(f[10..]) == destPort
  {
    AddressBack(src);
    AddressBack(dest);
    BytesBack(srcPort, 2);
    BytesBack(destPort, 2);
    Quarters(Bytes(src, 4), Bytes(srcPort, 2), Bytes(dest, 4), Bytes(destPort, 2));
  }

  lemma AddressBack(a: Address)
    ensures Murmur.Little(Bytes(a, 4)) == a
  {
    Pow2Word();
    BytesBack(a, 4);
  }

  lemma Halves(a: seq<Byte>, b: seq<Byte>)
    ensures (a + b)[..|a|] == a && (a + b)[|a|..] == b
  {
  }

  lemma Thirds(a: seq<Byte>, b: seq<Byte>, c: seq<Byte>)
    ensures var f := a + b + c; f[..|a|] == a && f[|a|..|a| + |b|] == b && f[|a| + |b|..] == c
  {
  }

  lemma Quarters(a: seq<Byte>, b: seq<Byte>, c: seq<Byte>, d: seq<Byte>)
    ensures var f, i := a + b + c + d, |a| + |b|;
            f[..|a|] == a && f[|a|..i] == b && f[i..i + |c|] == c && f[i + |c|..] == d
  {
  }

  // ---- the choice ----

  ghost function Gateways(best: seq<Entry>): set<Address> { set e | e in best :: e.route.gateway }

  /** `x` has exactly `k` smaller gateways. */
  ghost predicate HasRank(g: set<Address>, k: int, x: Address) { x in g && |Smaller(g, x)| == k }

  ghost function Smaller(g: set<Address>, x: Address): set<Address> { set y | y in g && y < x }

  lemma RanksDiffer(g: set<Address>, k: int, x: Address, y: Address)
    requires HasRank(g, k, x) && HasRank(g, k, y)
    ensures x == y
  {
    if x < y {
      assert Smaller(g, x) + {x} <= Smaller(g, y);
      SubsetSize(Smaller(g, x) + {x}, Smaller(g, y));
    } else if y < x {
      assert Smaller(g, y) + {y} <= Smaller(g, x);
      SubsetSize(Smaller(g, y) + {y}, Smaller(g, x));
    }
  }

  lemma {:induction false} SubsetSize(a: set<Address>, b: set<Address>)
    requires a <= b
    ensures |a| <= |b|
  {
    if a != {} {
      var x :| x in a;
      SubsetSize(a - {x}, b - {x});
    }
  }

  /** Sorting by gateway, and dropping all but the first of equal gateways. */
  function InsertByGateway(s: seq<Entry>, e: Entry): (r: seq<Entry>)
    ensures forall x :: x in r <==> x == e || x in s
  {
    if s == [] || e.route.gateway <= s[0].route.gateway then [e] + s else [s[0]] + InsertByGateway(s[1..], e)
  }

  function SortByGateway(s: seq<Entry>): (r: seq<Entry>)
    ensures forall x :: x in r <==> x in s
  {
    if s == [] then [] else InsertByGateway(SortByGateway(s[1..]), s[0])
  }

  function UniqueGateways(s: seq<Entry>): (r: seq<Entry>)
    ensures forall x :: x in r ==> x in s
    decreases |s|
  {
    if |s| < 2 then s
    else if s[0].route.gateway == s[1].route.gateway then UniqueGateways([s[0]] + s[2..])
    else [s[0]] + UniqueGateways(s[1..])
  }

  predicate Rising(s: seq<Entry>) { forall i, j :: 0 <= i < j < |s| ==> s[i].route.gateway <= s[j].route.gateway }

  predicate StrictlyRising(s: seq<Entry>) {
    forall i, j :: 0 <= i < j < |s| ==> s[i].route.gateway < s[j].route.gateway
  }

  lemma {:induction false} InsertRises(s: seq<Entry>, e: Entry)
    requires Rising(s)
    ensures Rising(InsertByGateway(s, e))
  {
    if s != [] && e.route.gateway > s[0].route.gateway {
      InsertRises(s[1..], e);
      forall x | x in InsertByGateway(s[1..], e)
        ensures s[0].route.gateway <= x.route.gateway
      {
        if x != e {
          var i :| 0 <= i < |s[1..]| && s[1..][i] == x;
          assert s[i + 1] == x;
        }
      }
    }
  }

  lemma {:induction false} SortRises(s: seq<Entry>)
    ensures Rising(SortByGateway(s))
  {
    if s != [] {
      SortRises(s[1..]);
      InsertRises(SortByGateway(s[1..]), s[0]);
    }
  }

  lemma GatewaysCons(e: Entry, s: seq<Entry>)
    ensures Gateways([e] + s) == {e.route.gateway} + Gateways(s)
  {
    assert forall x :: x in [e] + s <==> x == e || x in s;
  }

  /** One entry a gateway is left, in rising order; no gateway is lost. */
  lemma {:induction false} UniqueRises(s: seq<Entry>)
    requires Rising(s)
    ensures StrictlyRising(UniqueGateways(s)) && Gateways(UniqueGateways(s)) == Gateways(s)
    ensures s != [] ==> UniqueGateways(s) != [] && UniqueGateways(s)[0] == s[0]
    decreases |s|
  {
    if |s| >= 2 {
      if s[0].route.gateway == s[1].route.gateway {
        assert s == [s[0], s[1]] + s[2..];
        DropEqual(s[0], s[1], s[2..], s, [s[0]] + s[2..]);
        UniqueRises([s[0]] + s[2..]);
      } else {
        UniqueRises(s[1..]);
        KeepFirst(s, UniqueGateways(s[1..]));
      }
    }
  }

  lemma DropEqual(a: Entry, b: Entry, rest: seq<Entry>, s: seq<Entry>, t: seq<Entry>)
    requires Rising(s) && a.route.gateway == b.route.gateway && s == [a, b] + rest && t == [a] + rest
    ensures Rising(t) && Gateways(t) == Gateways(s)
  {
    assert s == [a] + ([b] + rest);
    GatewaysCons(a, [b] + rest);
    GatewaysCons(b, rest);
    GatewaysCons(a, rest);
    DropRises(a, b, rest, s, t);
  }

  lemma DropRises(a: Entry, b: Entry, rest: seq<Entry>, s: seq<Entry>, t: seq<Entry>)
    requires Rising(s) && s == [a, b] + rest && t == [a] + rest
    ensures Rising(t)
  {
    forall i | 0 <= i < |t|
      ensures t[i] == s[if i == 0 then 0 else i + 1]
    {
    }
  }

  lemma KeepFirst(s: seq<Entry>, u: seq<Entry>)
    requires Rising(s) && |s| >= 2 && s[0].route.gateway != s[1].route.gateway
    requires StrictlyRising(u) && Gateways(u) == Gateways(s[1..]) && u != [] && u[0] == s[1]
    ensures StrictlyRising([s[0]] + u) && Gateways([s[0]] + u) == Gateways(s)
  {
    assert s == [s[0]] + s[1..];
    GatewaysCons(s[0], s[1..]);
    GatewaysCons(s[0], u);
    AllAbove(s[0], u);
  }

  lemma AllAbove(e: Entry, u: seq<Entry>)
    requires StrictlyRising(u) && (u != [] ==> e.route.gateway < u[0].route.gateway)
    ensures StrictlyRising([e] + u)
  {
  }

  lemma {:induction false} RisingRank(s: seq<Entry>, k: nat)
    requires StrictlyRising(s) && k < |s|
    ensures |Gateways(s)| == |s| && HasRank(Gateways(s), k, s[k].route.gateway)
  {
    PrefixSize(s, |s|);
    PrefixSize(s, k);
    assert s[..|s|] == s;
    var g, x := Gateways(s), s[k].route.gateway;
    assert s[k] in s;
    forall y
      ensures y in Smaller(g, x) <==> y in Gateways(s[..k])
    {
      if y in Smaller(g, x) {
        var i :| 0 <= i < |s| && s[i].route.gateway == y;
        assert s[..k][i] == s[i];
      }
      if y in Gateways(s[..k]) {
        var i :| 0 <= i < k && s[..k][i].route.gateway == y;
        assert s[i] in s;
      }
    }
    assert Smaller(g, x) == Gateways(s[..k]);
  }

  lemma {:induction false} PrefixSize(s: seq<Entry>, k: nat)
    requires StrictlyRising(s) && k <= |s|
    ensures |Gateways(s[..k])| == k
  {
    if k > 0 {
      PrefixSize(s, k - 1);
      NextGateway(s, k - 1, k);
    } else {
      assert Gateways(s[..0]) == {};
    }
  }

  lemma AllBelow(s: seq<Entry>, k: nat)
    requires StrictlyRising(s) && k < |s|
    ensures forall e :: e in s[..k] ==> e.route.gateway < s[k].route.gateway
  {
    forall e | e in s[..k]
      ensures e.route.gateway < s[k].route.gateway
    {
      var i :| 0 <= i < k && s[..k][i] == e;
      assert s[i] == e;
    }
  }

  lemma NextGateway(s: seq<Entry>, k: nat, n: nat)
    requires StrictlyRising(s) && k < |s| && n == k + 1
    ensures |Gateways(s[..n])| == |Gateways(s[..k])| + 1
  {
    assert s[..n] == s[..k] + [s[k]];
    assert forall x :: x in s[..n] <==> x in s[..k] || x == s[k];
    AllBelow(s, k);
    assert Gateways(s[..n]) == Gateways(s[..k]) + {s[k].route.gateway};
  }

  /** The gateway a flow takes among those of equal cost. */
  ghost predicate FlowTakes(g: set<Address>, flow: FlowBin, seed: Word, x: Address)
    requires |flow| < WORD
  {
    g != {} && HasRank(g, Murmur.RouterIndex(Murmur.Hash(flow, seed), |g|), x)
  }

  /** Sorting, dropping duplicates and indexing by the hash. */
  method Choose(best: seq<Entry>, flow: FlowBin, seed: Word) returns (e: Entry)
    requires best != [] && |flow| < WORD
    ensures e in best && FlowTakes(Gateways(best), flow, seed, e.route.gateway)
  {
    var sorted := SortByGateway(best);
    var unique := UniqueGateways(sorted);
    SortRises(best);
    UniqueRises(sorted);
    assert best[0] in sorted;
    var hash := Murmur.Murmur3In32Bits(flow, seed);
    Murmur.PositiveModIsRemainder(Murmur.Signed(hash), |unique|);
    var k := Murmur.PositiveMod(Murmur.Signed(hash), |unique|);
    RisingRank(unique, k);
    e := unique[k];
    assert Gateways(sorted) == Gateways(best);
    assert e in unique;
  }

  // ---- the answer of a fresh scan ----

  /** The answers a fresh scan may give: `None` when nothing matches, else a collected route
      by the gateway that the flow takes. */
  ghost predicate FreshAnswer(table: seq<Entry>, dest: Address, flow: FlowBin, seed: Word, answer: Option<Handle>)
    requires |flow| < WORD
  {
    var best := Collect(table, dest, []);
    match answer
    case None => best == []
    case Some(h) =>
      exists e :: e in best && e.handle == h && FlowTakes(Gateways(best), flow, seed, e.route.gateway)
  }

  /** Two answers to one question agree on the gateway. */
  lemma AnswersAgree(table: seq<Entry>, dest: Address, flow: FlowBin, seed: Word, h: Handle, h': Handle)
    returns (e: Entry, e': Entry)
    requires |flow| < WORD
    requires FreshAnswer(table, dest, flow, seed, Some(h)) && FreshAnswer(table, dest, flow, seed, Some(h'))
    ensures e in table && e' in table && e.handle == h && e'.handle == h' && e.route.gateway == e'.route.gateway
  {
    e := Answered(table, dest, flow, seed, h);
    e' := Answered(table, dest, flow, seed, h');
    RanksDiffer(Gateways(Collect(table, dest, [])),
                Murmur.RouterIndex(Murmur.Hash(flow, seed), |Gateways(Collect(table, dest, []))|),
                e.route.gateway, e'.route.gateway);
  }

  lemma {:induction false} CollectInTable(table: seq<Entry>, dest: Address, best: seq<Entry>)
    ensures forall e :: e in Collect(table, dest, best) ==> e in table || e in best
  {
    if table != [] {
      CollectInTable(table[1..], dest, if Candidate(dest, table[0]) then best + [table[0]] else best);
    }
  }

  // ---- the order of insertion does not matter ----

  ghost function Routes(table: seq<Entry>): set<Route> { set e | e in table :: e.route }

  lemma LongestByRoute(a: seq<Entry>, b: seq<Entry>, dest: Address, e: Entry) returns (e': Entry)
    requires Routes(a) == Routes(b) && Longest(a, dest, e)
    ensures Longest(b, dest, e') && e'.route == e.route
  {
    assert e.route in Routes(b);
    e' :| e' in b && e'.route == e.route;
    forall x | x in b && Candidate(dest, x)
      ensures x.route.netmask <= e'.route.netmask
    {
      assert x.route in Routes(a);
      var y :| y in a && y.route == x.route;
      assert Candidate(dest, y);
    }
  }

  lemma GatewaysWithin(a: seq<Entry>, b: seq<Entry>, dest: Address)
    requires SortedTable(a) && SortedTable(b) && Routes(a) == Routes(b)
    requires !Overruns(a, dest)
    ensures Gateways(Collect(a, dest, [])) <= Gateways(Collect(b, dest, []))
  {
    CollectsLongest(a, dest);
    CollectsLongest(b, dest);
    forall x | x in Gateways(Collect(a, dest, []))
      ensures x in Gateways(Collect(b, dest, []))
    {
      var e :| e in Collect(a, dest, []) && e.route.gateway == x;
      assert Longest(a, dest, e);
      var e' := LongestByRoute(a, b, dest, e);
      assert e' in Collect(b, dest, []);
    }
  }

  lemma SameGateways(a: seq<Entry>, b: seq<Entry>, dest: Address)
    requires SortedTable(a) && SortedTable(b) && Routes(a) == Routes(b)
    requires NoSharedDestination(a) && NoSharedDestination(b)
    ensures Gateways(Collect(a, dest, [])) == Gateways(Collect(b, dest, []))
  {
    NotSharedNotOverrun(a, dest);
    NotSharedNotOverrun(b, dest);
    GatewaysWithin(a, b, dest);
    GatewaysWithin(b, a, dest);
  }

  /** Two tables of the same routes, filled in any order and with any order among equals,
      send a flow to the same gateway, if no destination is shared by two netmasks. */
  lemma OrderDoesNotMatter(a: seq<Entry>, b: seq<Entry>, dest: Address, flow: FlowBin, seed: Word,
                           h: Handle, h': Handle)
    returns (e: Entry, e': Entry)
    requires |flow| < WORD && SortedTable(a) && SortedTable(b) && Routes(a) == Routes(b)
    requires NoSharedDestination(a) && NoSharedDestination(b)
    requires FreshAnswer(a, dest, flow, seed, Some(h)) && FreshAnswer(b, dest, flow, seed, Some(h'))
    ensures e in a && e' in b && e.handle == h && e'.handle == h' && e.route.gateway == e'.route.gateway
  {
    SameGateways(a, b, dest);
    e := Answered(a, dest, flow, seed, h);
    e' := Answered(b, dest, flow, seed, h');
    RanksDiffer(Gateways(Collect(a, dest, [])),
                Murmur.RouterIndex(Murmur.Hash(flow, seed), |Gateways(Collect(a, dest, []))|),
                e.route.gateway, e'.route.gateway);
  }

  /** The entry behind an answer. */
  lemma Answered(table: seq<Entry>, dest: Address, flow: FlowBin, seed: Word, h: Handle) returns (e: Entry)
    requires |flow| < WORD && FreshAnswer(table, dest, flow, seed, Some(h))
    ensures e in table && e in Collect(table, dest, []) && e.handle == h
    ensures FlowTakes(Gateways(Collect(table, dest, [])), flow, seed, e.route.gateway)
  {
    CollectInTable(table, dest, []);
    e :| e in Collect(table, dest, []) && e.handle == h
         && FlowTakes(Gateways(Collect(table, dest, [])), flow, seed, e.route.gateway);
  }

  lemma AnyCollected(table: seq<Entry>, dest: Address)
    ensures Collect(table, dest, []) == [] <==> forall e :: e in table ==> !Candidate(dest, e)
  {
    CollectIs(table, dest);
    var f := FirstMatch(table, dest);
    if f < |table| {
      var tail := table[f..];
      assert tail[0] == table[f] && !Elsewhere(tail[0], tail[0].route.destination);
      var part := tail[..Stretch(tail, tail[0].route.destination)];
      assert part[0] == table[f];
      assert table[f] in Candidates(part, dest);
    }
  }

  /** One of them has no answer exactly when the other has none. */
  lemma NoAnswerAlike(a: seq<Entry>, b: seq<Entry>, dest: Address, flow: FlowBin, seed: Word)
    requires |flow| < WORD && Routes(a) == Routes(b)
    ensures FreshAnswer(a, dest, flow, seed, None) <==> FreshAnswer(b, dest, flow, seed, None)
  {
    AnyCollected(a, dest);
    AnyCollected(b, dest);
    forall e | e in a
      ensures exists e' :: e' in b && e'.route == e.route
    {
      assert e.route in Routes(b);
    }
    forall e | e in b
      ensures exists e' :: e' in a && e'.route == e.route
    {
      assert e.route in Routes(a);
    }
  }

  // ---- the answer in terms of longest prefixes ----

  ghost function LongestGateways(table: seq<Entry>, dest: Address): set<Address> {
    set e | e in table && Longest(table, dest, e) :: e.route.gateway
  }

  /** `None` when no valid route matches, else a longest match by the gateway that the flow
      takes among those of exactly the longest matches. */
  ghost predicate LongestAnswer(table: seq<Entry>, dest: Address, flow: FlowBin, seed: Word, answer: Option<Handle>)
    requires |flow| < WORD
  {
    match answer
    case None => forall e :: e in table ==> !Candidate(dest, e)
    case Some(h) =>
      exists e :: Longest(table, dest, e) && e.handle == h
                  && FlowTakes(LongestGateways(table, dest), flow, seed, e.route.gateway)
  }

  /** Unless the scan overruns, what it answers is a longest match. */
  lemma FreshIsLongest(table: seq<Entry>, dest: Address, flow: FlowBin, seed: Word, answer: Option<Handle>)
    requires |flow| < WORD && SortedTable(table) && !Overruns(table, dest)
    requires FreshAnswer(table, dest, flow, seed, answer)
    ensures LongestAnswer(table, dest, flow, seed, answer)
  {
    CollectsLongest(table, dest);
    match answer
    case None => AnyCollected(table, dest);
    case Some(h) =>
      var e := Answered(table, dest, flow, seed, h);
      var best := Collect(table, dest, []);
      CollectInTable(table, dest, []);
      assert Longest(table, dest, e);
      assert forall x :: x in best <==> x in table && Longest(table, dest, x);
      assert Gateways(best) == LongestGateways(table, dest);
  }
}

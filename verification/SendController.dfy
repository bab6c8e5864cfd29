/** The send side of a host as the object it is (SendController with OutboundMessage in
    HomaTransport.cc): every message has a queue of packets ordered by their first byte,
    the messages with queued packets form a set ordered by the bytes they have left, and
    grants wait in a queue of their own.  The methods do what the functions of Sender say,
    and the transport's assertions are theirs. */
module SendController {
  import opened Wrappers
  import opened Sums
  import opened Wire
  import opened Packetize
  import opened Priority
  import opened HomaTypes
  import opened Keys
  import opened SenderState
  import opened Sender

  type Queues = map<nat, seq<Pkt>>

  function LenSum(q: seq<Pkt>): nat { if q == [] then 0 else q[0].len + LenSum(q[1..]) }

  /** Lowest first byte first (OutbndPktSorter). */
  predicate ByOffset(q: seq<Pkt>) { forall i, j :: 0 <= i < j < |q| ==> q[i].first <= q[j].first }

  /** A packet goes behind those that start no later than it. */
  function Push(q: seq<Pkt>, p: Pkt): (r: seq<Pkt>)
    ensures |r| == |q| + 1
    ensures multiset(r) == multiset(q) + multiset{p}
    ensures LenSum(r) == LenSum(q) + p.len
  {
    if q == [] || p.first < q[0].first then
      assert ([p] + q)[1..] == q;
      [p] + q
    else
      assert q == [q[0]] + q[1..];
      assert ([q[0]] + Push(q[1..], p))[1..] == Push(q[1..], p);
      [q[0]] + Push(q[1..], p)
  }

  lemma PushMembers(q: seq<Pkt>, p: Pkt)
    ensures forall x :: x in Push(q, p) <==> x == p || x in q
  {
    forall x
      ensures x in Push(q, p) <==> x == p || x in q
    {
      assert x in multiset(Push(q, p)) <==> x in multiset(q) + multiset{p};
    }
  }

  lemma {:induction false} PushOrder(q: seq<Pkt>, p: Pkt)
    requires ByOffset(q)
    ensures ByOffset(Push(q, p))
  {
    if q != [] && p.first >= q[0].first {
      PushOrder(q[1..], p);
      PushMembers(q[1..], p);
      var t := Push(q[1..], p);
      forall j | 0 <= j < |t|
        ensures q[0].first <= t[j].first
      {
        assert t[j] in t;
      }
    }
  }

  lemma {:induction false} LenSumAppend(a: seq<Pkt>, p: Pkt)
    ensures LenSum(a + [p]) == LenSum(a) + p.len
  {
    if a == [] {
      assert a + [p] == [p];
    } else {
      assert (a + [p])[1..] == a[1..] + [p];
      LenSumAppend(a[1..], p);
    }
  }

  // ---- one message ----

  /** What the sender keeps of a message: it has left what needs a schedule and what is
      queued, and every packet carries data unless the message has none. */
  predicate OutMsgOk(addr: Addr, id: nat, o: OutMsg, q: seq<Pkt>) {
    && o.toSched >= 0 && o.left == o.toSched + LenSum(q)
    && (o.left == 0 ==> |q| == 1)
    && ByOffset(q)
    && forall p :: p in q ==> p.m == MsgRef(addr, id) && !p.Grant? && (o.left > 0 ==> p.len > 0)
  }

  lemma PositiveLen(q: seq<Pkt>)
    requires forall p :: p in q ==> p.len > 0
    ensures LenSum(q) == 0 <==> q == []
  {
    if q != [] { assert q[0] in q; }
  }

  /** With the last packet nothing is left, and only then. */
  lemma LastPacket(addr: Addr, id: nat, o: OutMsg, q: seq<Pkt>)
    requires OutMsgOk(addr, id, o, q) && q != []
    ensures o.left >= q[0].len
    ensures o.left - q[0].len <= 0 ==> q[1..] == []
    ensures o.left - q[0].len > 0 ==> OutMsgOk(addr, id, o.(left := o.left - q[0].len), q[1..])
  {
    assert q[0] in q;
    if o.left > 0 {
      assert forall p :: p in q[1..] ==> p in q;
      PositiveLen(q[1..]);
    }
  }

  /** A scheduled packet is added for a grant. */
  lemma AddScheduled(addr: Addr, id: nat, o: OutMsg, q: seq<Pkt>, g: Pkt)
    requires OutMsgOk(addr, id, o, q) && g.Grant? && g.m == MsgRef(addr, id) && 0 < g.len <= o.toSched
    ensures var p := Answer(o, g);
      OutMsgOk(addr, id, o.(toSched := o.toSched - p.len), Push(q, p)) && p.len == g.len
  {
    var p := Answer(o, g);
    PushOrder(q, p);
    PushMembers(q, p);
  }

  // ---- the set of messages with queued packets ----

  /** Shortest remaining bytes first (SRBF); the number breaks ties. */
  function OKey(out: map<nat, OutMsg>, id: nat): Key {
    if id in out then Key(out[id].left, out[id].created, id, 0) else Key(0, 0, id, 0)
  }

  function OKeys(out: map<nat, OutMsg>, ids: seq<nat>): (ks: seq<Key>)
    ensures |ks| == |ids| && forall k :: 0 <= k < |ks| ==> ks[k] == OKey(out, ids[k])
  {
    seq(|ids|, k requires 0 <= k < |ids| => OKey(out, ids[k]))
  }

  function SetErase(out: map<nat, OutMsg>, ids: seq<nat>, id: nat): seq<nat> {
    var pos := LowerBound(OKeys(out, ids), OKey(out, id));
    if pos < |ids| && ids[pos] == id then ids[..pos] + ids[pos + 1..] else ids
  }

  function SetInsert(out: map<nat, OutMsg>, ids: seq<nat>, id: nat): seq<nat> {
    var pos := UpperBound(OKeys(out, ids), OKey(out, id));
    ids[..pos] + [id] + ids[pos..]
  }

  lemma KeysDiffer(out: map<nat, OutMsg>, ids: seq<nat>, id: nat)
    requires id !in ids
    ensures OKey(out, id) !in OKeys(out, ids)
  {
    var ks := OKeys(out, ids);
    forall k | 0 <= k < |ks|
      ensures ks[k] != OKey(out, id)
    {
      assert ids[k] in ids && ks[k].c == ids[k];
    }
  }

  lemma OKeysFrame(out: map<nat, OutMsg>, out': map<nat, OutMsg>, ids: seq<nat>)
    requires forall k :: 0 <= k < |ids| ==> OKey(out', ids[k]) == OKey(out, ids[k])
    ensures OKeys(out', ids) == OKeys(out, ids)
  {
  }

  lemma SetInsertOk(out: map<nat, OutMsg>, ids: seq<nat>, id: nat)
    requires Sorted(OKeys(out, ids)) && id !in ids
    ensures Sorted(OKeys(out, SetInsert(out, ids, id)))
    ensures forall x :: x in SetInsert(out, ids, id) <==> x == id || x in ids
  {
    var ks, r := OKeys(out, ids), UpperBound(OKeys(out, ids), OKey(out, id));
    KeysDiffer(out, ids, id);
    InsertSorted(ks, OKey(out, id));
    assert OKeys(out, SetInsert(out, ids, id)) == ks[..r] + [OKey(out, id)] + ks[r..];
    Members(ids, r, id);
  }

  lemma SetEraseOk(out: map<nat, OutMsg>, ids: seq<nat>, id: nat)
    requires Sorted(OKeys(out, ids))
    ensures Sorted(OKeys(out, SetErase(out, ids, id)))
    ensures forall x :: x in SetErase(out, ids, id) <==> x in ids && x != id
    ensures id in ids ==> |SetErase(out, ids, id)| == |ids| - 1
  {
    if id in ids {
      var ks := OKeys(out, ids);
      var k := Position(ids, id);
      LowerBoundFinds(ks, k);
      RemoveSorted(ks, k);
      assert OKeys(out, ids[..k] + ids[k + 1..]) == ks[..k] + ks[k + 1..];
      SetErased(out, ids, k);
    }
  }

  lemma SetErased(out: map<nat, OutMsg>, ids: seq<nat>, k: nat)
    requires Sorted(OKeys(out, ids)) && k < |ids|
    ensures forall x :: x in ids[..k] + ids[k + 1..] <==> x in ids && x != ids[k]
  {
    var ks, l := OKeys(out, ids), ids[..k] + ids[k + 1..];
    assert ids == ids[..k] + [ids[k]] + ids[k + 1..];
    forall i | 0 <= i < |l|
      ensures l[i] != ids[k]
    {
      var j := if i < k then i else i + 1;
      assert l[i] == ids[j];
      assert if j < k then Less(ks[j], ks[k]) else Less(ks[k], ks[j]);
    }
  }

  // ---- all messages ----

  ghost function Lefts(out: map<nat, OutMsg>): map<nat, nat> {
    map id | id in out :: if out[id].left >= 0 then out[id].left as nat else 0
  }

  ghost function ToScheds(out: map<nat, OutMsg>): map<nat, nat> {
    map id | id in out :: if out[id].toSched >= 0 then out[id].toSched as nat else 0
  }

  /** A message is in the set exactly if it has queued packets, the set is in order, and
      the two byte totals are the sums over the messages. */
  ghost predicate SetOk(out: map<nat, OutMsg>, queues: Queues, ids: seq<nat>) {
    && Sorted(OKeys(out, ids))
    && forall id {:trigger HasPackets(queues, id)} :: id in ids <==> HasPackets(queues, id)
  }

  predicate HasPackets(queues: Queues, id: nat) { id in queues && queues[id] != [] }

  ghost predicate MsgsOk(addr: Addr, out: map<nat, OutMsg>, queues: Queues, next: nat) {
    && queues.Keys == out.Keys
    && forall id {:trigger OutMsgOk(addr, id, out[id], queues[id])} :: id in out ==>
        OutMsgOk(addr, id, out[id], queues[id]) && id < next
  }

  ghost predicate TotalsOk(out: map<nat, OutMsg>, left: int, need: int) {
    left == Total(Lefts(out)) && need == Total(ToScheds(out))
  }

  /** The queues hold exactly the packets of `bag`. */
  ghost predicate Holds(addr: Addr, queues: Queues, bag: multiset<Pkt>) {
    forall p {:trigger bag[p]} ::
      bag[p] == if p.m.src == addr && p.m.id in queues then multiset(queues[p.m.id])[p] else 0
  }

  lemma MsgsUpdate(addr: Addr, out: map<nat, OutMsg>, queues: Queues, next: nat, id: nat, o: OutMsg, q: seq<Pkt>)
    requires MsgsOk(addr, out, queues, next) && OutMsgOk(addr, id, o, q) && id < next
    ensures MsgsOk(addr, out[id := o], queues[id := q], next)
  {
    var out', queues' := out[id := o], queues[id := q];
    forall k | k in out'
      ensures OutMsgOk(addr, k, out'[k], queues'[k]) && k < next
    {
      if k != id { assert OutMsgOk(addr, k, out[k], queues[k]); }
    }
  }

  lemma MsgsDrop(addr: Addr, out: map<nat, OutMsg>, queues: Queues, next: nat, id: nat)
    requires MsgsOk(addr, out, queues, next)
    ensures MsgsOk(addr, out - {id}, queues - {id}, next)
  {
    forall k | k in out - {id}
      ensures OutMsgOk(addr, k, out[k], queues[k]) && k < next
    {
    }
  }

  /** A message changes its key only while it is out of the set. */
  lemma SetUpdate(out: map<nat, OutMsg>, queues: Queues, ids: seq<nat>, id: nat, o: OutMsg, q: seq<Pkt>)
    requires SetOk(out, queues, ids)
    ensures var rest, out', queues' := SetErase(out, ids, id), out[id := o], queues[id := q];
      SetOk(out', queues', if q != [] then SetInsert(out', rest, id) else rest)
  {
    var rest, out' := SetErase(out, ids, id), out[id := o];
    SetEraseOk(out, ids, id);
    forall k | 0 <= k < |rest|
      ensures OKey(out', rest[k]) == OKey(out, rest[k])
    {
      assert rest[k] in rest;
    }
    OKeysFrame(out, out', rest);
    SetInsertOk(out', rest, id);
    var ids', queues' := if q != [] then SetInsert(out', rest, id) else rest, queues[id := q];
    forall k
      ensures k in ids' <==> HasPackets(queues', k)
    {
      assert k in ids <==> HasPackets(queues, k);
    }
  }

  lemma SetDrop(out: map<nat, OutMsg>, queues: Queues, ids: seq<nat>, id: nat)
    requires SetOk(out, queues, ids)
    ensures SetOk(out - {id}, queues - {id}, SetErase(out, ids, id))
  {
    var rest := SetErase(out, ids, id);
    SetEraseOk(out, ids, id);
    forall k | 0 <= k < |rest|
      ensures OKey(out - {id}, rest[k]) == OKey(out, rest[k])
    {
      assert rest[k] in rest;
    }
    OKeysFrame(out, out - {id}, rest);
    var queues' := queues - {id};
    forall k
      ensures k in rest <==> HasPackets(queues', k)
    {
      assert k in ids <==> HasPackets(queues, k);
    }
  }

  lemma TotalsUpdate(out: map<nat, OutMsg>, left: int, need: int, id: nat, o: OutMsg)
    requires TotalsOk(out, left, need) && o.left >= 0 && o.toSched >= 0
    requires id in out ==> out[id].left >= 0 && out[id].toSched >= 0
    ensures TotalsOk(out[id := o], left - (if id in out then out[id].left else 0) + o.left,
                     need - (if id in out then out[id].toSched else 0) + o.toSched)
  {
    assert Lefts(out[id := o]) == Lefts(out)[id := o.left as nat];
    assert ToScheds(out[id := o]) == ToScheds(out)[id := o.toSched as nat];
    TotalUpdate(Lefts(out), id, o.left as nat);
    TotalUpdate(ToScheds(out), id, o.toSched as nat);
  }

  lemma TotalsDrop(out: map<nat, OutMsg>, left: int, need: int, id: nat)
    requires TotalsOk(out, left, need) && id in out && out[id].left >= 0 && out[id].toSched == 0
    ensures TotalsOk(out - {id}, left - out[id].left, need)
  {
    assert Lefts(out - {id}) == Lefts(out) - {id};
    assert ToScheds(out - {id}) == ToScheds(out) - {id};
    TotalAt(Lefts(out), id);
    TotalAt(ToScheds(out), id);
  }

  lemma HoldsMore(addr: Addr, queues: Queues, bag: multiset<Pkt>, id: nat, q: seq<Pkt>, add: multiset<Pkt>)
    requires Holds(addr, queues, bag) && forall p :: p in add ==> p.m == MsgRef(addr, id)
    requires multiset(q) == (if id in queues then multiset(queues[id]) else multiset{}) + add
    ensures Holds(addr, queues[id := q], bag + add)
  {
  }

  lemma HoldsLess(addr: Addr, queues: Queues, bag: multiset<Pkt>, id: nat)
    requires Holds(addr, queues, bag) && id in queues && queues[id] != []
    requires forall p :: p in queues[id] ==> p.m == MsgRef(addr, id)
    ensures Holds(addr, queues[id := queues[id][1..]], bag - multiset{queues[id][0]})
    ensures queues[id][1..] == [] ==> Holds(addr, queues - {id}, bag - multiset{queues[id][0]})
  {
    var q := queues[id];
    assert q == [q[0]] + q[1..];
    assert multiset(q) == multiset{q[0]} + multiset(q[1..]);
    assert q[0] in q;
  }

  /** The messages being sent, as the controller keeps them. */
  datatype Book = Book(
    out: map<nat, OutMsg>,      // outboundMsgMap
    txPkts: Queues,             // queued packets of every message
    ids: seq<nat>,              // outbndMsgSet, in order
    left: int,                  // bytesLeftToSend
    need: int,                  // bytesNeedGrant
    next: nat)                  // msgId

  /** Messages, set and totals agree and the queues hold `bag`. */
  ghost predicate BookOk(addr: Addr, b: Book, bag: multiset<Pkt>) {
    && MsgsOk(addr, b.out, b.txPkts, b.next) && SetOk(b.out, b.txPkts, b.ids)
    && TotalsOk(b.out, b.left, b.need) && Holds(addr, b.txPkts, bag)
  }

  /** The message first in the set and its first packet: there is one, it is counted in
      what is left, and it is the last one exactly if nothing is left after it. */
  lemma FirstQueued(addr: Addr, b: Book, bag: multiset<Pkt>, id: nat)
    requires BookOk(addr, b, bag) && id in b.ids
    ensures id in b.out && id in b.txPkts && b.txPkts[id] != []
    ensures var p := b.txPkts[id][0];
      && p.m == MsgRef(addr, id) && p in bag && p.len <= b.out[id].left <= b.left
      && (b.out[id].left <= p.len ==> b.txPkts[id] == [p] && b.out[id].toSched == 0 && b.out[id].left == p.len)
      && forall q :: q in b.txPkts[id] ==> p.first <= q.first
  {
    assert HasPackets(b.txPkts, id);
    var p, q := b.txPkts[id][0], b.txPkts[id];
    assert OutMsgOk(addr, id, b.out[id], q);
    assert p in q;
    LastPacket(addr, id, b.out[id], q);
    LeftAtLeast(b.out, b.left, b.need, id);
    assert bag[p] == multiset(q)[p];
    if b.out[id].left <= p.len {
      assert q == [p] + q[1..];
    }
  }

  lemma LeftAtLeast(out: map<nat, OutMsg>, left: int, need: int, id: nat)
    requires TotalsOk(out, left, need) && id in out
    ensures left >= out[id].left
  {
    TotalAt(Lefts(out), id);
  }

  /** Message `i` with fewer bytes left goes before message `j`; among equals the older one,
      then the one with the lower number. */
  predicate Shorter(out: map<nat, OutMsg>, i: nat, j: nat)
    requires i in out && j in out
  {
    || out[i].left < out[j].left
    || (out[i].left == out[j].left && out[i].created < out[j].created)
    || (out[i].left == out[j].left && out[i].created == out[j].created && i < j)
  }

  /** `p` is the packet that data is sent with next: of all messages with queued packets its
      message is the first, and of that message's packets it has the lowest offset. */
  predicate SentNext(addr: Addr, b: Book, p: Pkt) {
    && p.m.src == addr && p.m.id in b.out && p.m.id in b.txPkts && p in b.txPkts[p.m.id]
    && (forall q :: q in b.txPkts[p.m.id] ==> p.first <= q.first)
    && (forall id :: HasPackets(b.txPkts, id) && id in b.out && id != p.m.id ==> Shorter(b.out, p.m.id, id))
  }

  /** The message first in the set has the fewest bytes left of those with queued packets. */
  lemma ShortestFirst(addr: Addr, b: Book, bag: multiset<Pkt>, id: nat)
    requires BookOk(addr, b, bag) && b.ids != [] && HasPackets(b.txPkts, id) && id in b.out
    ensures b.ids[0] in b.out && (id == b.ids[0] || Shorter(b.out, b.ids[0], id))
  {
    assert b.ids[0] in b.ids;
    FirstQueued(addr, b, bag, b.ids[0]);
    var k := Position(b.ids, id);
    var ks := OKeys(b.out, b.ids);
    if k > 0 { assert Less(ks[0], ks[k]); }
  }

  lemma FirstIsNext(addr: Addr, b: Book, bag: multiset<Pkt>)
    requires BookOk(addr, b, bag) && b.ids != []
    ensures HasPackets(b.txPkts, b.ids[0]) && SentNext(addr, b, b.txPkts[b.ids[0]][0])
  {
    assert b.ids[0] in b.ids;
    FirstQueued(addr, b, bag, b.ids[0]);
    forall id | HasPackets(b.txPkts, id) && id in b.out && id != b.ids[0]
      ensures b.ids[0] in b.out && Shorter(b.out, b.ids[0], id)
    {
      ShortestFirst(addr, b, bag, id);
    }
  }

  /** The last packet of a message leaves and the message is dropped. */
  function TakeLast(b: Book, id: nat, p: Pkt): Book {
    Book(b.out - {id}, b.txPkts - {id}, SetErase(b.out, b.ids, id), b.left - p.len, b.need, b.next)
  }

  lemma TakeLastOk(addr: Addr, b: Book, bag: multiset<Pkt>, id: nat, p: Pkt)
    requires BookOk(addr, b, bag) && id in b.ids && id in b.txPkts && id in b.out
    requires b.txPkts[id] == [p] && p.m == MsgRef(addr, id) && b.out[id].toSched == 0 && b.out[id].left == p.len
    ensures BookOk(addr, TakeLast(b, id, p), bag - multiset{p})
  {
    HoldsLess(addr, b.txPkts, bag, id);
    SetDrop(b.out, b.txPkts, b.ids, id);
    TotalsDrop(b.out, b.left, b.need, id);
    MsgsDrop(addr, b.out, b.txPkts, b.next, id);
  }

  /** Message `id` goes from its state to `o` with queue `q`: it is taken out of the set
      while its key changes and put back if it has packets. */
  function Rekey(b: Book, id: nat, o: OutMsg, q: seq<Pkt>): Book {
    var rest, out := SetErase(b.out, b.ids, id), b.out[id := o];
    Book(out, b.txPkts[id := q], if q != [] then SetInsert(out, rest, id) else rest,
         b.left - (if id in b.out then b.out[id].left else 0) + o.left,
         b.need - (if id in b.out then b.out[id].toSched else 0) + o.toSched, b.next)
  }

  lemma RekeyOk(addr: Addr, b: Book, bag: multiset<Pkt>, id: nat, o: OutMsg, q: seq<Pkt>, b': Book, bag': multiset<Pkt>)
    requires BookOk(addr, b, bag) && OutMsgOk(addr, id, o, q) && id < b.next && Holds(addr, b.txPkts[id := q], bag')
    requires b' == Rekey(b, id, o, q)
    ensures BookOk(addr, b', bag')
  {
    RekeyMsgs(addr, b, bag, id, o, q);
    RekeySet(addr, b, bag, id, o, q);
    BookFrom(addr, b', bag', b.out[id := o], b.txPkts[id := q]);
  }

  lemma RekeyMsgs(addr: Addr, b: Book, bag: multiset<Pkt>, id: nat, o: OutMsg, q: seq<Pkt>)
    requires BookOk(addr, b, bag) && OutMsgOk(addr, id, o, q) && id < b.next
    ensures var b' := Rekey(b, id, o, q);
      MsgsOk(addr, b'.out, b'.txPkts, b'.next) && TotalsOk(b'.out, b'.left, b'.need)
  {
    if id in b.out { assert OutMsgOk(addr, id, b.out[id], b.txPkts[id]); }
    TotalsUpdate(b.out, b.left, b.need, id, o);
    MsgsUpdate(addr, b.out, b.txPkts, b.next, id, o, q);
  }

  lemma RekeySet(addr: Addr, b: Book, bag: multiset<Pkt>, id: nat, o: OutMsg, q: seq<Pkt>)
    requires BookOk(addr, b, bag)
    ensures var b' := Rekey(b, id, o, q); SetOk(b'.out, b'.txPkts, b'.ids)
  {
    SetUpdate(b.out, b.txPkts, b.ids, id, o, q);
  }

  lemma BookFrom(addr: Addr, b: Book, bag: multiset<Pkt>, out: map<nat, OutMsg>, txPkts: Queues)
    requires b.out == out && b.txPkts == txPkts
    requires MsgsOk(addr, out, txPkts, b.next) && SetOk(out, txPkts, b.ids)
    requires TotalsOk(out, b.left, b.need) && Holds(addr, txPkts, bag)
    ensures BookOk(addr, b, bag)
  {
  }

  /** The first of several packets of a message leaves. */
  function TakeOne(b: Book, id: nat): Book
    requires id in b.out && id in b.txPkts && b.txPkts[id] != []
  {
    var o, q := b.out[id], b.txPkts[id];
    Rekey(b, id, o.(left := o.left - q[0].len), q[1..])
  }

  lemma TakeOneOk(addr: Addr, b: Book, bag: multiset<Pkt>, id: nat, b': Book)
    requires BookOk(addr, b, bag) && id in b.txPkts && id in b.out
    requires b.txPkts[id] != [] && b.out[id].left > b.txPkts[id][0].len && b' == TakeOne(b, id)
    ensures BookOk(addr, b', bag - multiset{b.txPkts[id][0]})
  {
    var o, q := b.out[id], b.txPkts[id];
    CanTakeOne(addr, b, bag, id, o, q);
    RekeyOk(addr, b, bag, id, o.(left := o.left - q[0].len), q[1..], b', bag - multiset{q[0]});
  }

  lemma CanTakeOne(addr: Addr, b: Book, bag: multiset<Pkt>, id: nat, o: OutMsg, q: seq<Pkt>)
    requires BookOk(addr, b, bag) && id in b.txPkts && id in b.out && o == b.out[id] && q == b.txPkts[id]
    requires q != [] && o.left > q[0].len
    ensures OutMsgOk(addr, id, o.(left := o.left - q[0].len), q[1..]) && id < b.next
    ensures Holds(addr, b.txPkts[id := q[1..]], bag - multiset{q[0]})
  {
    assert OutMsgOk(addr, id, o, q);
    LastPacket(addr, id, o, q);
    HoldsLess(addr, b.txPkts, bag, id);
  }

  /** The packet of lowest offset of the first message of the set, and the book without it. */
  function FirstPkt(b: Book): Pkt
    requires b.ids != [] && HasPackets(b.txPkts, b.ids[0])
  {
    b.txPkts[b.ids[0]][0]
  }

  function FirstTaken(b: Book): Book
    requires b.ids != [] && HasPackets(b.txPkts, b.ids[0]) && b.ids[0] in b.out
  {
    var id, p := b.ids[0], FirstPkt(b);
    if b.out[id].left - p.len <= 0 then TakeLast(b, id, p) else TakeOne(b, id)
  }

  lemma FirstTakenOk(addr: Addr, b: Book, bag: multiset<Pkt>)
    requires BookOk(addr, b, bag) && b.ids != [] && b.ids[0] in b.out && HasPackets(b.txPkts, b.ids[0])
    ensures BookOk(addr, FirstTaken(b), bag - multiset{FirstPkt(b)})
  {
    var id, p := b.ids[0], FirstPkt(b);
    assert id in b.ids;
    FirstQueued(addr, b, bag, id);
    if b.out[id].left - p.len <= 0 {
      TakeLastOk(addr, b, bag, id, p);
    } else {
      TakeOneOk(addr, b, bag, id, TakeOne(b, id));
    }
  }

  lemma FirstTakenOut(b: Book, bag: multiset<Pkt>)
    requires b.ids != [] && HasPackets(b.txPkts, b.ids[0]) && b.ids[0] in b.out && FirstPkt(b).m.id == b.ids[0]
    ensures FirstTaken(b).next == b.next
    ensures FirstTaken(b).out == Transmit(Tx(b.out, bag, multiset{}, true), FirstPkt(b)).out
  {
  }

  /** prepareSchedPkt */
  function Schedule(b: Book, id: nat, g: Pkt): Book
    requires id in b.out && id in b.txPkts && g.Grant? && b.out[id].toSched >= 0
  {
    var o, p := b.out[id], Answer(b.out[id], g);
    Rekey(b, id, o.(toSched := o.toSched - p.len), Push(b.txPkts[id], p))
  }

  lemma ScheduleOk(addr: Addr, b: Book, bag: multiset<Pkt>, id: nat, g: Pkt, b': Book)
    requires BookOk(addr, b, bag) && id in b.txPkts && id in b.out
    requires g.Grant? && g.m == MsgRef(addr, id) && 0 < g.len <= b.out[id].toSched && b' == Schedule(b, id, g)
    ensures BookOk(addr, b', bag + multiset{Answer(b.out[id], g)})
    ensures Answer(b.out[id], g).len == g.len
  {
    var p := Answer(b.out[id], g);
    var o, q := b.out[id].(toSched := b.out[id].toSched - p.len), Push(b.txPkts[id], p);
    MsgIn(addr, b, bag, id);
    AddScheduled(addr, id, b.out[id], b.txPkts[id], g);
    PushHolds(addr, b.txPkts, bag, id, p);
    RekeyOk(addr, b, bag, id, o, q, b', bag + multiset{p});
  }

  lemma PushHolds(addr: Addr, queues: Queues, bag: multiset<Pkt>, id: nat, p: Pkt)
    requires Holds(addr, queues, bag) && id in queues && p.m == MsgRef(addr, id)
    ensures Holds(addr, queues[id := Push(queues[id], p)], bag + multiset{p})
  {
    HoldsMore(addr, queues, bag, id, Push(queues[id], p), multiset{p});
  }

  lemma MsgIn(addr: Addr, b: Book, bag: multiset<Pkt>, id: nat)
    requires BookOk(addr, b, bag) && id in b.out && id in b.txPkts
    ensures OutMsgOk(addr, id, b.out[id], b.txPkts[id]) && id < b.next && Holds(addr, b.txPkts, bag)
  {
  }

  // ---- a new message ----

  lemma {:induction false} PushLast(q: seq<Pkt>, p: Pkt)
    requires forall x :: x in q ==> x.first <= p.first
    ensures Push(q, p) == q + [p]
  {
    if q != [] {
      assert q[0] in q;
      PushLast(q[1..], p);
      assert [q[0]] + (q[1..] + [p]) == q + [p];
    }
  }

  lemma {:induction false} PlanLen(cfg: Config, m: MsgRef, spec: Spec, k: nat)
    requires cfg.Valid() && ValidSpec(spec) && k <= |Plan(cfg, m, spec)|
    ensures LenSum(Plan(cfg, m, spec)[..k]) == SumSeq(Sizes(cfg, spec.size)[..k])
  {
    if k > 0 {
      var plan := Plan(cfg, m, spec);
      PlanLen(cfg, m, spec, k - 1);
      PlanAt(cfg, m, spec, k - 1);
      NextLen(plan, Sizes(cfg, spec.size), k - 1, k);
    }
  }

  lemma NextLen(plan: seq<Pkt>, sizes: seq<nat>, i: nat, k: nat)
    requires i < |plan| == |sizes| && k == i + 1 && plan[i].len == sizes[i]
    requires LenSum(plan[..i]) == SumSeq(sizes[..i])
    ensures LenSum(plan[..k]) == SumSeq(sizes[..k])
  {
    assert plan[..k] == plan[..i] + [plan[i]] && sizes[..k] == sizes[..i] + [sizes[i]];
    LenSumAppend(plan[..i], plan[i]);
    SumSeqAppend(sizes[..i], sizes[i]);
  }

  lemma PlanOrder(cfg: Config, m: MsgRef, spec: Spec, i: nat, j: nat)
    requires cfg.Valid() && ValidSpec(spec) && i <= j < |Plan(cfg, m, spec)|
    ensures Plan(cfg, m, spec)[i].first <= Plan(cfg, m, spec)[j].first
  {
    SumSeqPrefix(Sizes(cfg, spec.size), i, j);
  }

  lemma PushesNext(cfg: Config, m: MsgRef, spec: Spec, i: nat)
    requires cfg.Valid() && ValidSpec(spec) && i < |Plan(cfg, m, spec)|
    ensures var plan := Plan(cfg, m, spec); Push(plan[..i], plan[i]) == plan[..i + 1]
  {
    forall k | 0 <= k < i
      ensures Plan(cfg, m, spec)[k].first <= Plan(cfg, m, spec)[i].first
    {
      PlanOrder(cfg, m, spec, k, i);
    }
    PushedLast(Plan(cfg, m, spec), i);
  }

  lemma PushedLast(plan: seq<Pkt>, i: nat)
    requires i < |plan| && forall k :: 0 <= k < i ==> plan[k].first <= plan[i].first
    ensures Push(plan[..i], plan[i]) == plan[..i + 1]
  {
    forall x | x in plan[..i]
      ensures x.first <= plan[i].first
    {
      var k :| 0 <= k < i && plan[k] == x;
    }
    PushLast(plan[..i], plan[i]);
    assert plan[..i + 1] == plan[..i] + [plan[i]];
  }

  /** A new message satisfies what the sender keeps of messages. */
  lemma NewMsgOk(cfg: Config, addr: Addr, id: nat, spec: Spec)
    requires cfg.Valid() && ValidSpec(spec)
    ensures OutMsgOk(addr, id, NewOut(cfg, spec), Plan(cfg, MsgRef(addr, id), spec))
  {
    var m, plan := MsgRef(addr, id), Plan(cfg, MsgRef(addr, id), spec);
    PlanLen(cfg, m, spec, |plan|);
    assert plan[..|plan|] == plan && Sizes(cfg, spec.size)[..|plan|] == Sizes(cfg, spec.size);
    PktSizesSum(cfg.req, cfg.unsched, spec.size);
    PlanByOffset(cfg, m, spec);
    NewMsgPackets(cfg, m, spec);
  }

  lemma PlanByOffset(cfg: Config, m: MsgRef, spec: Spec)
    requires cfg.Valid() && ValidSpec(spec)
    ensures ByOffset(Plan(cfg, m, spec))
  {
    var plan := Plan(cfg, m, spec);
    forall i, j | 0 <= i < j < |plan|
      ensures plan[i].first <= plan[j].first
    {
      PlanOrder(cfg, m, spec, i, j);
    }
  }

  lemma NewMsgPackets(cfg: Config, m: MsgRef, spec: Spec)
    requires cfg.Valid() && ValidSpec(spec)
    ensures forall p :: p in Plan(cfg, m, spec) ==> p.m == m && !p.Grant? && (spec.size > 0 ==> p.len > 0)
    ensures spec.size == 0 ==> |Plan(cfg, m, spec)| == 1
  {
    forall p | p in Plan(cfg, m, spec)
      ensures p.m == m && !p.Grant? && (spec.size > 0 ==> p.len > 0)
    {
      assert p in multiset(Plan(cfg, m, spec));
      var i := PlanHas(cfg, m, spec, p);
      PlanFits(cfg, m, spec, i);
    }
    if spec.size == 0 {
      PktSizesBounds(cfg.req, cfg.unsched, 0, 0);
    }
  }

  /** A new message keeps the book balanced. */
  lemma AddMsgOk(cfg: Config, addr: Addr, b: Book, bag: multiset<Pkt>, spec: Spec, plan: seq<Pkt>, b': Book)
    requires cfg.Valid() && ValidSpec(spec) && BookOk(addr, b, bag) && plan == Plan(cfg, MsgRef(addr, b.next), spec)
    requires b' == Rekey(b.(next := b.next + 1), b.next, NewOut(cfg, spec), plan)
    ensures BookOk(addr, b', bag + multiset(plan)) && b.next !in b.out
    ensures b'.out == b.out[b.next := NewOut(cfg, spec)] && (b.ids == [] ==> |b'.ids| == 1)
  {
    var id, b1 := b.next, b.(next := b.next + 1);
    NextIsNew(addr, b, bag);
    NewMsgOk(cfg, addr, id, spec);
    NewMsgPackets(cfg, MsgRef(addr, id), spec);
    NextOk(addr, b, bag);
    NewPackets(addr, b1, bag, id, plan);
    RekeyOk(addr, b1, bag, id, NewOut(cfg, spec), plan, b', bag + multiset(plan));
    FirstOfSet(b1, id, NewOut(cfg, spec), plan);
  }

  lemma NewPackets(addr: Addr, b: Book, bag: multiset<Pkt>, id: nat, plan: seq<Pkt>)
    requires BookOk(addr, b, bag) && id !in b.txPkts && forall p :: p in plan ==> p.m == MsgRef(addr, id)
    ensures Holds(addr, b.txPkts[id := plan], bag + multiset(plan))
  {
    HoldsMore(addr, b.txPkts, bag, id, plan, multiset(plan));
  }

  lemma NextIsNew(addr: Addr, b: Book, bag: multiset<Pkt>)
    requires BookOk(addr, b, bag)
    ensures b.next !in b.out && b.next !in b.txPkts
  {
    forall id | id in b.out
      ensures id < b.next
    {
      assert OutMsgOk(addr, id, b.out[id], b.txPkts[id]);
    }
  }

  lemma NextOk(addr: Addr, b: Book, bag: multiset<Pkt>)
    requires BookOk(addr, b, bag)
    ensures BookOk(addr, b.(next := b.next + 1), bag)
  {
    forall id | id in b.out
      ensures OutMsgOk(addr, id, b.out[id], b.txPkts[id]) && id < b.next + 1
    {
    }
  }

  /** In an empty set a message with packets is alone. */
  lemma FirstOfSet(b: Book, id: nat, o: OutMsg, q: seq<Pkt>)
    requires q != []
    ensures b.ids == [] ==> |Rekey(b, id, o, q).ids| == 1
  {
  }

  /** A grant makes progress: numBytesSent is positive. */
  lemma Scheduled(b: Book, id: nat, g: Pkt)
    requires id in b.out && id in b.txPkts && g.Grant? && 0 < g.len <= b.out[id].toSched
    ensures var b', p := Schedule(b, id, g), Answer(b.out[id], g);
      && b'.out == b.out[id := b.out[id].(toSched := b.out[id].toSched - p.len)]
      && b.out[id].toSched - b'.out[id].toSched > 0
      && (b.ids == [] ==> |b'.ids| == 1)
  {
    var o, p := b.out[id], Answer(b.out[id], g);
    FirstOfSet(b, id, o.(toSched := o.toSched - p.len), Push(b.txPkts[id], p));
  }

  lemma KnownQueue(addr: Addr, b: Book, bag: multiset<Pkt>, id: nat)
    requires BookOk(addr, b, bag) && id in b.out
    ensures id in b.txPkts && b.out[id].toSched >= 0
  {
    assert OutMsgOk(addr, id, b.out[id], b.txPkts[id]);
  }

  lemma AcceptIs(cfg: Config, tx: Tx, out: map<nat, OutMsg>, m: MsgRef, spec: Spec, plan: seq<Pkt>)
    requires cfg.Valid() && ValidSpec(spec) && out == tx.out[m.id := NewOut(cfg, spec)] && plan == Plan(cfg, m, spec)
    ensures Accept(cfg, tx, m, spec) == Tx(out, tx.queued + multiset(plan), tx.grantQ, tx.busy)
  {
  }

  lemma TakeGrantIs(tx: Tx, out: map<nat, OutMsg>, g: Pkt)
    requires g.Grant? && g.m.id in tx.out && tx.out[g.m.id].toSched >= 0
    requires out == TakeGrant(tx, g).out
    ensures TakeGrant(tx, g) == Tx(out, tx.queued + multiset{Answer(tx.out[g.m.id], g)}, tx.grantQ, tx.busy)
  {
  }

  lemma TransmitIs(tx: Tx, out: map<nat, OutMsg>, out': map<nat, OutMsg>, p: Pkt)
    requires tx.out == out && p.m.id in out && out' == Transmit(Tx(out, tx.queued, multiset{}, true), p).out
    ensures Transmit(tx, p) == Tx(out', tx.queued - multiset{p}, tx.grantQ, true)
  {
  }

  /** The set is empty exactly if no packet is queued. */
  lemma QueuesHold(addr: Addr, b: Book, bag: multiset<Pkt>)
    requires BookOk(addr, b, bag)
    ensures b.ids == [] <==> bag == multiset{}
  {
    if b.ids != [] {
      assert b.ids[0] in b.ids;
      FirstQueued(addr, b, bag, b.ids[0]);
    } else {
      forall p
        ensures bag[p] == 0
      {
        assert p.m.id !in b.ids;
        assert !HasPackets(b.txPkts, p.m.id);
      }
    }
  }

  /** A grant that waits for the link. */
  datatype Waiting = Waiting(created: int, grant: Pkt)

  /** HomaPktSorter on grants of one host, which have one priority, no arrival time and no
      first byte: earlier creation times first, then lower message numbers. */
  predicate Ahead(a: Waiting, b: Waiting) {
    a.created < b.created || (a.created == b.created && a.grant.m.id < b.grant.m.id)
  }

  predicate NoneAhead(q: seq<Waiting>, w: Waiting) { forall e :: e in q ==> !Ahead(e, w) }

  /** top() of the priority queue: a grant that no other one is ahead of. */
  function TopOf(q: seq<Waiting>): (r: nat)
    requires q != []
    ensures r < |q| && NoneAhead(q, q[r])
  {
    if |q| == 1 then 0
    else
      var init, last := q[..|q| - 1], q[|q| - 1];
      var r := TopOf(init);
      assert q == init + [last];
      if Ahead(last, init[r]) then |q| - 1 else r
  }

  function Grants(q: seq<Waiting>): (r: seq<Pkt>)
    ensures |r| == |q| && forall k :: 0 <= k < |q| ==> r[k] == q[k].grant
  {
    seq(|q|, k requires 0 <= k < |q| => q[k].grant)
  }

  /** `g` was one of the waiting grants, none was ahead of it, and the others still wait. */
  predicate Popped(q: seq<Waiting>, g: Pkt, q': seq<Waiting>) {
    exists k :: 0 <= k < |q| && q[k].grant == g && NoneAhead(q, q[k]) && q' == q[..k] + q[k + 1..]
  }

  /** The grant that leaves is for the oldest of the messages whose grants wait. */
  lemma PoppedIsOldest(q: seq<Waiting>, g: Pkt, q': seq<Waiting>) returns (w: Waiting)
    requires Popped(q, g, q')
    ensures w in q && w.grant == g && multiset(q) == multiset(q') + multiset{w}
    ensures forall e :: e in q ==>
      w.created < e.created || (w.created == e.created && w.grant.m.id <= e.grant.m.id)
  {
    var k :| 0 <= k < |q| && q[k].grant == g && NoneAhead(q, q[k]) && q' == q[..k] + q[k + 1..];
    w := q[k];
    assert q == q[..k] + [q[k]] + q[k + 1..];
  }

  lemma GrantPushed(q: seq<Waiting>, w: Waiting)
    ensures multiset(Grants(q + [w])) == multiset(Grants(q)) + multiset{w.grant}
  {
    assert Grants(q + [w]) == Grants(q) + [w.grant];
  }

  lemma GrantPopped(q: seq<Waiting>, k: nat)
    requires k < |q|
    ensures q[k].grant in multiset(Grants(q))
    ensures multiset(Grants(q[..k] + q[k + 1..])) == multiset(Grants(q)) - multiset{q[k].grant}
  {
    var gs := Grants(q);
    assert gs[k] in gs;
    assert gs == gs[..k] + [gs[k]] + gs[k + 1..];
    assert Grants(q[..k] + q[k + 1..]) == gs[..k] + gs[k + 1..];
  }

  /** A new message goes into map, set and totals, and the next number is one higher. */
  method Record(cfg: ValidConfig, addr: Addr, b: Book, ghost bag: multiset<Pkt>, spec: Spec, plan: seq<Pkt>)
    returns (b': Book)
    requires ValidSpec(spec) && BookOk(addr, b, bag) && plan == Plan(cfg, MsgRef(addr, b.next), spec)
    ensures BookOk(addr, b', bag + multiset(plan)) && b.next !in b.out && b'.next == b.next + 1
    ensures b'.out == b.out[b.next := NewOut(cfg, spec)] && (b.ids == [] ==> |b'.ids| == 1)
  {
    b' := Rekey(b.(next := b.next + 1), b.next, NewOut(cfg, spec), plan);
    AddMsgOk(cfg, addr, b, bag, spec, plan, b');
  }

  /** getTransmitReadyPkt for the first message of the set: the message leaves the set,
      gives up its packet of lowest offset and goes back with its new key if it has more;
      with nothing left it is dropped (msgTransmitComplete). */
  method TakeFirst(addr: Addr, b: Book, ghost bag: multiset<Pkt>) returns (p: Pkt, b': Book)
    requires BookOk(addr, b, bag) && b.ids != []
    ensures p in bag && BookOk(addr, b', bag - multiset{p}) && b'.next == b.next
    ensures p.m == MsgRef(addr, b.ids[0]) && p.m.id in b.out && p.m.id in b.txPkts && SentNext(addr, b, p)
    ensures b'.out == Transmit(Tx(b.out, bag, multiset{}, true), p).out
  {
    var id := b.ids[0];
    assert id in b.ids;
    FirstQueued(addr, b, bag, id);
    FirstTakenOk(addr, b, bag);
    FirstTakenOut(b, bag);
    FirstIsNext(addr, b, bag);
    p := b.txPkts[id][0];
    var hasMoreReadyPkt := |b.txPkts[id]| > 1;
    assert b.left >= p.len;
    if b.out[id].left - p.len <= 0 {
      assert !hasMoreReadyPkt;
      b' := TakeLast(b, id, p);
    } else {
      b' := TakeOne(b, id);
    }
  }

  class Controller {
    const cfg: ValidConfig
    const addr: Addr
    var book: Book
    var outGrantQueue: seq<Waiting>
    var sendTimer: bool             // the link timer is scheduled
    var sent: seq<Pkt>              // packets handed to the network, in order
    ghost var tx: Tx                // the same as a value

    ghost predicate Valid()
      reads this
    {
      && BookOk(addr, book, tx.queued)
      && tx == Tx(book.out, tx.queued, multiset(Grants(outGrantQueue)), sendTimer)
    }

    /** An idle link means that nothing is waiting. */
    ghost predicate Rested()
      reads this
    {
      !sendTimer ==> outGrantQueue == [] && book.ids == []
    }

    constructor (c: Config, a: Addr)
      requires c.Valid()
      ensures cfg == c && addr == a && Valid() && Rested() && tx == NEW_TX && sent == []
    {
      cfg, addr := c, a;
      book, outGrantQueue := Book(map[], map[], [], 0, 0, 0), [];
      sendTimer, sent := false, [];
      tx := NEW_TX;
    }

    /** Sends the packet of lowest offset of the message with the fewest bytes left. */
    method SendFirst() returns (p: Pkt)
      requires Valid() && book.ids != []
      modifies this`book, this`sent, this`sendTimer, this`tx
      ensures Valid() && sendTimer
      ensures p in old(tx.queued) && p.m.id in old(tx.out)
      ensures tx == Transmit(old(tx), p) && sent == old(sent) + [p]
      ensures SentNext(addr, old(book), p)
    {
      var b: Book;
      p, b := TakeFirst(addr, book, tx.queued);
      Depart(p, b);
    }

    /** The packet is on the link, and `b` is what remains. */
    method Depart(p: Pkt, b: Book)
      requires Valid() && p.m.id in book.out && BookOk(addr, b, tx.queued - multiset{p})
      requires b.out == Transmit(Tx(book.out, tx.queued, multiset{}, true), p).out
      modifies this`book, this`sent, this`sendTimer, this`tx
      ensures Valid() && sendTimer && tx == Transmit(old(tx), p) && sent == old(sent) + [p]
    {
      TransmitIs(tx, book.out, b.out, p);
      book, sent, sendTimer := b, sent + [p], true;
      tx := Tx(book.out, tx.queued - multiset{p}, tx.grantQ, true);
    }

    /** sendOrQueue for data: a busy link is left alone; an idle one finds exactly the
        message that has just got a packet, and takes a packet of it. */
    method KickLink() returns (next: Option<Pkt>)
      requires Valid() && (!sendTimer ==> outGrantQueue == [] && |book.ids| == 1)
      modifies this`book, this`sent, this`sendTimer, this`tx
      ensures Valid() && Rested()
      ensures next.None? <==> old(sendTimer)
      ensures next.None? ==> tx == old(tx) && sent == old(sent)
      ensures next.Some? ==>
        && next.value in old(tx.queued) && next.value.m.id in old(tx.out) && SentNext(addr, old(book), next.value)
        && tx == Transmit(old(tx), next.value) && sent == old(sent) + [next.value]
    {
      if sendTimer {
        return None;
      }
      assert outGrantQueue == [] && |book.ids| == 1;
      var p := SendFirst();
      next := Some(p);
    }

    /** prepareRequestAndUnsched: the packets of a message, each with the table of what
        the others bring. */
    method PrepareRequestAndUnsched(m: MsgRef, spec: Spec) returns (q: seq<Pkt>)
      requires cfg.Valid() && ValidSpec(spec)
      ensures q == Plan(cfg, m, spec)
    {
      var sizes, prios := Sizes(cfg, spec.size), Prios(cfg, spec.size);
      ghost var plan := Plan(cfg, m, spec);
      var prioUnschedBytes := Group(prios, sizes, |sizes|);
      var nextByteToSched: nat := 0;
      q := [];
      var i := 0;
      assert sizes[..0] == [];
      while i < |sizes|
        invariant 0 <= i <= |sizes| && q == plan[..i] && nextByteToSched == SumSeq(sizes[..i])
      {
        var table := OthersTable(prioUnschedBytes, prios[i], sizes[i]);
        var p := Unsched(m, spec.dst, i == 0, nextByteToSched, sizes[i], prios[i],
                         UnschedHdr(spec.size, spec.created, Unscheduled(cfg, spec.size), table));
        PlanAt(cfg, m, spec, i);
        assert p == plan[i];
        PushesNext(cfg, m, spec, i);
        q := Push(q, p);
        nextByteToSched := nextByteToSched + p.len;
        i := i + 1;
      }
      assert plan[..i] == plan;
    }

    /** A message is recorded and its first packets queued. */
    method AddMessage(spec: Spec) returns (m: MsgRef)
      requires Valid() && ValidSpec(spec)
      modifies this`book, this`tx
      ensures Valid() && m == MsgRef(addr, old(book).next) && m.id !in old(tx.out)
      ensures tx == Accept(cfg, old(tx), m, spec)
      ensures old(book).ids == [] ==> |book.ids| == 1
    {
      m := MsgRef(addr, book.next);
      var plan := PrepareRequestAndUnsched(m, spec);
      var b := Record(cfg, addr, book, tx.queued, spec, plan);
      AcceptIs(cfg, tx, b.out, m, spec, plan);
      Enqueue(b, multiset(plan));
    }

    /** processSendMsgFromApp */
    method ProcessSendMsgFromApp(spec: Spec) returns (m: MsgRef, next: Option<Pkt>)
      requires Valid() && Rested() && ValidSpec(spec)
      modifies this`book, this`sent, this`sendTimer, this`tx
      ensures Valid() && Rested() && m == MsgRef(addr, old(book).next) && m.id !in old(tx.out)
      ensures var t := Accept(cfg, old(tx), m, spec);
        && (next.None? <==> old(sendTimer))
        && (next.None? ==> tx == t && sent == old(sent))
        && (next.Some? ==> next.value in t.queued && next.value.m.id in t.out
                           && tx == Transmit(t, next.value) && sent == old(sent) + [next.value])
    {
      m := AddMessage(spec);
      next := KickLink();
    }

    /** processReceivedGrant: a scheduled packet answers the grant. */
    method ProcessReceivedGrant(g: Pkt) returns (next: Option<Pkt>)
      requires Valid() && Rested() && g.Grant? && g.m.src == addr && g.m.id in tx.out
      requires 0 < g.len <= tx.out[g.m.id].toSched
      modifies this`book, this`sent, this`sendTimer, this`tx
      ensures Valid() && Rested()
      ensures var t := TakeGrant(old(tx), g);
        && (next.None? <==> old(sendTimer))
        && (next.None? ==> tx == t && sent == old(sent))
        && (next.Some? ==> next.value in t.queued && next.value.m.id in t.out
                           && tx == Transmit(t, next.value) && sent == old(sent) + [next.value])
    {
      AddScheduledPkt(g);
      next := KickLink();
    }

    method AddScheduledPkt(g: Pkt)
      requires Valid() && g.Grant? && g.m.src == addr && g.m.id in tx.out && 0 < g.len <= tx.out[g.m.id].toSched
      modifies this`book, this`tx
      ensures Valid() && tx == TakeGrant(old(tx), g)
      ensures old(book).ids == [] ==> |book.ids| == 1
    {
      KnownQueue(addr, book, tx.queued, g.m.id);
      var b := Schedule(book, g.m.id, g);
      ScheduleOk(addr, book, tx.queued, g.m.id, g, b);
      Scheduled(book, g.m.id, g);
      TakeGrantIs(tx, b.out, g);
      Enqueue(b, multiset{Answer(tx.out[g.m.id], g)});
    }

    /** `b` is the book with packets queued. */
    method Enqueue(b: Book, ghost pkts: multiset<Pkt>)
      requires Valid() && BookOk(addr, b, tx.queued + pkts)
      modifies this`book, this`tx
      ensures Valid() && book == b && tx == Tx(b.out, old(tx.queued) + pkts, old(tx.grantQ), old(tx.busy))
    {
      book := b;
      tx := Tx(b.out, tx.queued + pkts, tx.grantQ, tx.busy);
    }

    /** sendOrQueue for a grant: it leaves at once or waits for the link. */
    method SendGrant(g: Pkt, created: int)
      requires Valid() && Rested() && g.Grant?
      modifies this`outGrantQueue, this`sent, this`sendTimer, this`tx
      ensures Valid() && Rested() && tx == Emit(old(tx), g)
      ensures sent == old(sent) + if old(sendTimer) then [] else [g]
      ensures outGrantQueue == old(outGrantQueue) + if old(sendTimer) then [Waiting(created, g)] else []
    {
      if sendTimer {
        QueueGrant(Waiting(created, g));
      } else {
        assert outGrantQueue == [];
        sent, sendTimer, tx := sent + [g], true, Emit(tx, g);
      }
    }

    method QueueGrant(w: Waiting)
      requires Valid() && sendTimer
      modifies this`outGrantQueue, this`tx
      ensures Valid() && tx == Emit(old(tx), w.grant) && outGrantQueue == old(outGrantQueue) + [w]
    {
      GrantPushed(outGrantQueue, w);
      outGrantQueue, tx := outGrantQueue + [w], Emit(tx, w.grant);
    }

    /** The link has become free: the first of the waiting grants leaves before any data, and
        the link rests only when nothing is waiting. */
    method SendTimerFired() returns (next: Option<Pkt>)
      requires Valid() && sendTimer
      modifies this`book, this`outGrantQueue, this`sent, this`sendTimer, this`tx
      ensures Valid() && Rested()
      ensures sent == old(sent) + if next.Some? then [next.value] else []
      ensures old(tx.grantQ) != multiset{} ==>
        && next.Some? && Popped(old(outGrantQueue), next.value, outGrantQueue)
        && next.value in old(tx.grantQ) && tx == old(tx).(grantQ := old(tx.grantQ) - multiset{next.value})
      ensures old(tx.grantQ) == multiset{} && old(tx.queued) != multiset{} ==>
        next.Some? && next.value in old(tx.queued) && next.value.m.id in old(tx.out)
        && SentNext(addr, old(book), next.value) && tx == Transmit(old(tx), next.value)
      ensures old(tx.grantQ) == multiset{} == old(tx.queued) ==> next.None? && tx == old(tx).(busy := false)
    {
      QueuesHold(addr, book, tx.queued);
      if outGrantQueue != [] {
        var g := PopGrant();
        return Some(g);
      }
      if book.ids != [] {
        var p := SendFirst();
        return Some(p);
      }
      sendTimer, tx := false, tx.(busy := false);
      return None;
    }

    method PopGrant() returns (g: Pkt)
      requires Valid() && sendTimer && outGrantQueue != []
      modifies this`outGrantQueue, this`sent, this`tx
      ensures Valid() && sent == old(sent) + [g]
      ensures g in old(tx.grantQ) && tx == old(tx).(grantQ := old(tx.grantQ) - multiset{g})
      ensures Popped(old(outGrantQueue), g, outGrantQueue)
    {
      var top := TopOf(outGrantQueue);
      g := outGrantQueue[top].grant;
      GrantPopped(outGrantQueue, top);
      outGrantQueue, sent := outGrantQueue[..top] + outGrantQueue[top + 1..], sent + [g];
      tx := Tx(book.out, tx.queued, multiset(Grants(outGrantQueue)), sendTimer);
    }
  }
}

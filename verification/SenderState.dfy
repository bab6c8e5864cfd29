/** What a receiver keeps about one sender (SenderState in HomaTransport.cc). */
module SenderState {
  import opened Wrappers
  import opened Wire
  import opened Priority
  import opened HomaTypes
  import opened Keys
  import opened Inbound

  /** `queue` is mesgsToGrant: message numbers in the order of their keys. */
  datatype Sx = Sx(
    incomplete: map<nat, InMsg>,
    queue: seq<nat>,
    timer: bool,            // the grant timer is scheduled
    lastGrantPrio: nat,
    lastIdx: int)

  function NewSx(cfg: Config): Sx { Sx(map[], [], false, cfg.allPrio, cfg.schedPrios) }

  /** The part of a message's key that never changes. */
  datatype Ident = Ident(size: int, created: int, id: int)

  function IdentOf(i: InMsg): Ident { Ident(i.size, i.created, i.id) }

  function KeyIn(incomplete: map<nat, InMsg>, id: nat): Key {
    if id in incomplete then KeyOf(incomplete[id]) else Key(0, 0, 0, 0)
  }

  function QKeys(incomplete: map<nat, InMsg>, queue: seq<nat>): (ks: seq<Key>)
    ensures |ks| == |queue|
    ensures forall k :: 0 <= k < |ks| ==> ks[k] == KeyIn(incomplete, queue[k])
  {
    seq(|queue|, k requires 0 <= k < |queue| => KeyIn(incomplete, queue[k]))
  }

  predicate Bounded(i: InMsg) { 0 <= i.toGrant <= i.size <= UINT32_MAX && i.offset >= 0 }

  /** `own` tells the senders of a receiver's messages apart by what never changes in a
      message's key: no two senders have live messages of equal size, creation time
      and number. */
  ghost predicate MesgOk(i: InMsg, id: nat, s: Addr, own: map<Ident, Addr>) {
    && i.id == id && i.src == s && Bounded(i)
    && IdentOf(i) in own && own[IdentOf(i)] == s
  }

  /** mesgsToGrant is exactly the incomplete messages that need grants, in key order. */
  ghost predicate QueueOk(incomplete: map<nat, InMsg>, queue: seq<nat>) {
    && (forall k :: 0 <= k < |queue| ==> queue[k] in incomplete && incomplete[queue[k]].toGrant > 0)
    && (forall id :: id in incomplete && incomplete[id].toGrant > 0 ==> id in queue)
    && Sorted(QKeys(incomplete, queue))
  }

  ghost predicate SxOk(sx: Sx, s: Addr, own: map<Ident, Addr>) {
    && MesgsOk(sx.incomplete, s, own)
    && QueueOk(sx.incomplete, sx.queue)
  }

  /** Key of the sender in the order of senders: that of its first message. */
  function SKey(sx: Sx): Key {
    if sx.queue == [] then Key(0, 0, 0, 0) else KeyIn(sx.incomplete, sx.queue[0])
  }

  function Top(sx: Sx): InMsg
    requires sx.queue != [] && sx.queue[0] in sx.incomplete
  {
    sx.incomplete[sx.queue[0]]
  }

  /** std::set::erase finds the element with an equal key. */
  function EraseQ(incomplete: map<nat, InMsg>, queue: seq<nat>, id: nat): seq<nat> {
    var pos := LowerBound(QKeys(incomplete, queue), KeyIn(incomplete, id));
    if pos < |queue| then queue[..pos] + queue[pos + 1..] else queue
  }

  function InsertQ(incomplete: map<nat, InMsg>, queue: seq<nat>, id: nat): seq<nat> {
    var pos := UpperBound(QKeys(incomplete, queue), KeyIn(incomplete, id));
    queue[..pos] + [id] + queue[pos..]
  }

  function Lookup(sx: Sx, p: Pkt): InMsg
    requires p.m.id in sx.incomplete || p.Unsched?
  {
    if p.m.id in sx.incomplete then sx.incomplete[p.m.id] else NewInMsg(p)
  }

  /** Everything handleInboundPkt and fillinRxBytes assert about the packet. */
  predicate InboundAsserts(sx: Sx, p: Pkt) {
    && !p.Grant?
    && (p.m.id in sx.incomplete || p.Unsched?)
    && FillAsserts(Lookup(sx, p), p)
    && (Fill(Lookup(sx, p), p).toReceive == 0 ==>
          Lookup(sx, p).toGrant == 0 && Fill(Lookup(sx, p), p).grants == [])
  }

  datatype Handled = Handled(sx: Sx, complete: bool)

  /** handleInboundPkt: `complete` when the message goes to the application. */
  function HandleInbound(sx: Sx, p: Pkt): Handled
    requires InboundAsserts(sx, p)
  {
    Replace(sx, p.m.id, Fill(Lookup(sx, p), p))
  }

  /** Message `id` is in state `j` after the packet; its key is what it was before. */
  function Replace(sx: Sx, id: nat, j: InMsg): Handled {
    var queue :=
      if id in sx.incomplete && sx.incomplete[id].toGrant > 0
      then EraseQ(sx.incomplete, sx.queue, id) else sx.queue;
    if j.toReceive == 0 then
      Handled(sx.(incomplete := sx.incomplete - {id}, queue := queue), true)
    else if j.toGrant == 0 then
      Handled(sx.(incomplete := sx.incomplete[id := j], queue := queue), false)
    else
      Handled(sx.(incomplete := sx.incomplete[id := j], queue := InsertQ(sx.incomplete[id := j], queue, id)), false)
  }

  datatype Sent = Sent(sx: Sx, grant: Option<Pkt>)

  predicate TopOk(sx: Sx) {
    sx.queue != [] ==> sx.queue[0] in sx.incomplete && Bounded(Top(sx)) && Top(sx).toGrant > 0
  }

  function GrantPrio(cfg: Config, sx: Sx, prio: nat): nat
    requires cfg.Valid() && sx.queue != [] && TopOk(sx)
  {
    Min(prio, SchedPktPrio(cfg.mode, cfg.cutOffs, cfg.boostTail, cfg.allPrio, Top(sx).size, Top(sx).toGrant))
  }

  /** A grant of `len` bytes goes out for the first message, and the timer is started if
      the message now first may be granted more. */
  function Issue(cfg: Config, addr: Addr, s: Addr, sx: Sx, len: nat, prio: nat): Sent
    requires sx.queue != [] && TopOk(sx)
  {
    var granted := PrepareGrant(Top(sx), len);
    var incomplete := sx.incomplete[sx.queue[0] := granted];
    var queue := if granted.toGrant > 0 then sx.queue else sx.queue[1..];
    var again := queue != [] && queue[0] in incomplete && incomplete[queue[0]].inFlight < cfg.maxOutstanding;
    Sent(Sx(incomplete, queue, again, prio, sx.lastIdx),
         Some(Grant(MsgRef(s, sx.queue[0]), addr, Top(sx).offset as nat, len, prio)))
  }

  /** sendAndScheduleGrant of sender `s` at receiver `addr`: at most one grant for the
      first message; the timer is left running only if the sender may be granted again. */
  function SendAndSchedule(cfg: Config, addr: Addr, s: Addr, sx: Sx, prio: nat): Sent
    requires cfg.Valid() && sx.queue != [] && TopOk(sx)
  {
    var grantPrio := GrantPrio(cfg, sx, prio);
    if sx.timer && sx.lastGrantPrio <= grantPrio then
      Sent(sx, None)
    else if Top(sx).inFlight >= cfg.maxOutstanding then
      Sent(sx.(timer := false), None)
    else
      Issue(cfg, addr, s, sx, Min(Top(sx).toGrant, cfg.grantMax), grantPrio)
  }

  /** The sender waits for its timer or for packets already under way. */
  predicate Served(cfg: Config, sx: Sx) {
    sx.queue != [] && sx.queue[0] in sx.incomplete ==> sx.timer || Top(sx).inFlight >= cfg.maxOutstanding
  }

  lemma QueueInjective(incomplete: map<nat, InMsg>, queue: seq<nat>)
    requires QueueOk(incomplete, queue)
    ensures forall j, k :: 0 <= j < |queue| && 0 <= k < |queue| && queue[j] == queue[k] ==> j == k
  {
    var ks := QKeys(incomplete, queue);
    forall j, k | 0 <= j < k < |queue|
      ensures queue[j] != queue[k]
    {
      assert Less(ks[j], ks[k]);
    }
  }

  lemma QKeysUpdate(incomplete: map<nat, InMsg>, queue: seq<nat>, id: nat, j: InMsg)
    requires id !in queue || KeyOf(j) == KeyIn(incomplete, id)
    ensures QKeys(incomplete[id := j], queue) == QKeys(incomplete, queue)
  {
    var ks, ks' := QKeys(incomplete, queue), QKeys(incomplete[id := j], queue);
    forall k | 0 <= k < |queue|
      ensures ks[k] == ks'[k]
    {
      assert queue[k] in queue;
    }
  }

  lemma QKeysErase(incomplete: map<nat, InMsg>, queue: seq<nat>, k: nat)
    requires k < |queue|
    ensures var ks := QKeys(incomplete, queue);
            QKeys(incomplete, queue[..k] + queue[k + 1..]) == ks[..k] + ks[k + 1..]
  {
  }

  lemma QKeysInsert(incomplete: map<nat, InMsg>, queue: seq<nat>, r: nat, id: nat)
    requires r <= |queue|
    ensures var ks := QKeys(incomplete, queue);
            QKeys(incomplete, queue[..r] + [id] + queue[r..]) == ks[..r] + [KeyIn(incomplete, id)] + ks[r..]
  {
  }

  lemma Position(queue: seq<nat>, id: nat) returns (k: nat)
    requires id in queue
    ensures k < |queue| && queue[k] == id
  {
    k :| 0 <= k < |queue| && queue[k] == id;
  }

  /** Erasing a listed message and inserting it with the same key changes nothing. */
  lemma EraseInsert(incomplete: map<nat, InMsg>, queue: seq<nat>, id: nat, j: InMsg)
    requires QueueOk(incomplete, queue) && id in incomplete && incomplete[id].toGrant > 0
    requires KeyOf(j) == KeyOf(incomplete[id])
    ensures InsertQ(incomplete[id := j], EraseQ(incomplete, queue, id), id) == queue
  {
    var k := Position(queue, id);
    var ks := QKeys(incomplete, queue);
    LowerBoundFinds(ks, k);
    RemoveSorted(ks, k);
    var queue0 := queue[..k] + queue[k + 1..];
    QKeysErase(incomplete, queue, k);
    QKeysUpdate(incomplete, queue0, id, j);
    assert EraseQ(incomplete, queue, id) == queue0;
    assert UpperBound(QKeys(incomplete[id := j], queue0), KeyIn(incomplete[id := j], id)) == k;
    Reassemble(queue, k);
  }

  lemma Reassemble(queue: seq<nat>, k: nat)
    requires k < |queue|
    ensures var q := queue[..k] + queue[k + 1..]; q[..k] + [queue[k]] + q[k..] == queue
  {
  }

  lemma SameKeysSameOrder(incomplete: map<nat, InMsg>, incomplete': map<nat, InMsg>, queue: seq<nat>)
    requires QueueOk(incomplete, queue)
    requires forall id :: id in incomplete' && incomplete'[id].toGrant > 0 ==>
               id in incomplete && KeyOf(incomplete'[id]) == KeyOf(incomplete[id])
    requires forall id :: id in incomplete && incomplete[id].toGrant > 0 ==>
               id in incomplete' && KeyOf(incomplete'[id]) == KeyOf(incomplete[id])
    ensures QueueOk(incomplete', queue)
  {
    assert QKeys(incomplete', queue) == QKeys(incomplete, queue);
  }

  /** A message not yet listed goes to the place its key gives it. */
  lemma QueueInsertOk(incomplete: map<nat, InMsg>, queue: seq<nat>, id: nat, j: InMsg)
    requires QueueOk(incomplete, queue) && id !in incomplete && j.toGrant > 0 && j.id == id
    requires forall k :: k in incomplete ==> incomplete[k].id == k
    ensures QueueOk(incomplete[id := j], InsertQ(incomplete[id := j], queue, id))
    ensures var q := InsertQ(incomplete[id := j], queue, id);
            && q != []
            && (q[0] != id ==> queue != [] && q[0] == queue[0])
            && (q[0] == id && queue != [] ==> Less(KeyOf(j), KeyIn(incomplete, queue[0])))
  {
    var r := InsertPlace(incomplete, queue, id, j);
    InsertedOk(incomplete, queue, id, j, r);
    InsertedHead(queue, r, id);
  }

  lemma InsertedHead(queue: seq<nat>, r: nat, id: nat)
    requires r <= |queue|
    ensures var q := queue[..r] + [id] + queue[r..]; q != [] && q[0] == if r == 0 then id else queue[0]
  {
  }

  /** Where the message goes. */
  lemma InsertPlace(incomplete: map<nat, InMsg>, queue: seq<nat>, id: nat, j: InMsg) returns (r: nat)
    requires QueueOk(incomplete, queue) && id !in incomplete && j.id == id
    requires forall k :: k in incomplete ==> incomplete[k].id == k
    ensures r == UpperBound(QKeys(incomplete, queue), KeyOf(j)) <= |queue|
    ensures InsertQ(incomplete[id := j], queue, id) == queue[..r] + [id] + queue[r..]
    ensures r == 0 && queue != [] ==> Less(KeyOf(j), KeyIn(incomplete, queue[0]))
  {
    var ks := QKeys(incomplete, queue);
    QKeysUpdate(incomplete, queue, id, j);
    r := UpperBound(ks, KeyOf(j));
    if r == 0 && queue != [] { assert Less(KeyOf(j), ks[0]); }
  }

  lemma InsertedSorted(incomplete: map<nat, InMsg>, queue: seq<nat>, id: nat, j: InMsg, r: nat)
    requires QueueOk(incomplete, queue) && id !in incomplete && j.id == id
    requires forall k :: k in incomplete ==> incomplete[k].id == k
    requires r == UpperBound(QKeys(incomplete, queue), KeyOf(j)) <= |queue|
    ensures Sorted(QKeys(incomplete[id := j], queue[..r] + [id] + queue[r..]))
  {
    QKeysUpdate(incomplete, queue, id, j);
    NewKey(incomplete, queue, id, j);
    InsertSorted(QKeys(incomplete, queue), KeyOf(j));
    QKeysInsert(incomplete[id := j], queue, r, id);
  }

  lemma InsertedOk(incomplete: map<nat, InMsg>, queue: seq<nat>, id: nat, j: InMsg, r: nat)
    requires QueueOk(incomplete, queue) && id !in incomplete && j.toGrant > 0 && j.id == id
    requires forall k :: k in incomplete ==> incomplete[k].id == k
    requires r == UpperBound(QKeys(incomplete, queue), KeyOf(j)) <= |queue|
    ensures QueueOk(incomplete[id := j], queue[..r] + [id] + queue[r..])
  {
    var q := queue[..r] + [id] + queue[r..];
    InsertedSorted(incomplete, queue, id, j, r);
    Members(queue, r, id);
    forall k | 0 <= k < |q|
      ensures q[k] in incomplete[id := j] && incomplete[id := j][q[k]].toGrant > 0
    {
      assert q[k] in q;
    }
  }

  lemma NewKey(incomplete: map<nat, InMsg>, queue: seq<nat>, id: nat, j: InMsg)
    requires QueueOk(incomplete, queue) && id !in incomplete && j.id == id
    requires forall k :: k in incomplete ==> incomplete[k].id == k
    ensures KeyOf(j) !in QKeys(incomplete, queue)
  {
    var ks := QKeys(incomplete, queue);
    forall k | 0 <= k < |ks|
      ensures ks[k] != KeyOf(j)
    {
      assert queue[k] in incomplete && ks[k].d == queue[k];
    }
  }

  lemma Members(queue: seq<nat>, r: nat, id: nat)
    requires r <= |queue|
    ensures forall x :: x in queue[..r] + [id] + queue[r..] <==> x == id || x in queue
  {
    assert queue == queue[..r] + queue[r..];
  }

  predicate KeyNotLater(k: Key, l: Key) { k == l || Less(k, l) }

  lemma FillKeeps(i: InMsg, p: Pkt)
    requires !p.Grant? && FillAsserts(i, p)
    ensures KeyOf(Fill(i, p)) == KeyOf(i) && IdentOf(Fill(i, p)) == IdentOf(i)
    ensures Fill(i, p).src == i.src && Fill(i, p).offset == i.offset
  {
  }

  ghost predicate Numbered(incomplete: map<nat, InMsg>) {
    forall k :: k in incomplete ==> incomplete[k].id == k
  }

  lemma ReplaceKnown(sx: Sx, id: nat, j: InMsg)
    requires QueueOk(sx.incomplete, sx.queue) && id in sx.incomplete
    requires KeyOf(j) == KeyOf(sx.incomplete[id]) && j.toGrant >= 0
    requires j.toReceive == 0 ==> j.toGrant == 0
    ensures Replace(sx, id, j).sx.queue == sx.queue
    ensures QueueOk(Replace(sx, id, j).sx.incomplete, sx.queue)
    ensures SKey(Replace(sx, id, j).sx) == SKey(sx)
  {
    if j.toGrant > 0 {
      EraseInsert(sx.incomplete, sx.queue, id, j);
    }
    SameKeysSameOrder(sx.incomplete, Replace(sx, id, j).sx.incomplete, sx.queue);
    if sx.queue != [] && sx.queue[0] == id {
      assert sx.incomplete[id].toGrant > 0;
    }
  }

  lemma ReplaceNew(sx: Sx, id: nat, j: InMsg)
    requires QueueOk(sx.incomplete, sx.queue) && id !in sx.incomplete && j.id == id
    requires Numbered(sx.incomplete) && j.toGrant >= 0
    requires j.toReceive == 0 ==> j.toGrant == 0
    ensures var h := Replace(sx, id, j).sx;
      && QueueOk(h.incomplete, h.queue)
      && (sx.queue != [] ==> h.queue != [] && KeyNotLater(SKey(h), SKey(sx)))
  {
    var h := Replace(sx, id, j).sx;
    if j.toGrant == 0 {
      SameKeysSameOrder(sx.incomplete, h.incomplete, sx.queue);
    } else {
      QueueInsertOk(sx.incomplete, sx.queue, id, j);
    }
  }

  /** A packet keeps the order of the sender's messages, moves the sender's key only
      forward, and never takes away the sender's last message that needs grants. */
  lemma HandleInboundOk(sx: Sx, p: Pkt, s: Addr, own: map<Ident, Addr>)
    requires SxOk(sx, s, own) && InboundAsserts(sx, p) && MesgOk(Lookup(sx, p), p.m.id, s, own)
    ensures var h := HandleInbound(sx, p);
      && SxOk(h.sx, s, own)
      && (sx.queue != [] ==> h.sx.queue != [] && KeyNotLater(SKey(h.sx), SKey(sx)))
      && (p.m.id in sx.incomplete ==> h.sx.queue == sx.queue)
  {
    var i := Lookup(sx, p);
    var j := Fill(i, p);
    FillKeeps(i, p);
    ReplaceOk(sx, p.m.id, i, j, s, own);
  }

  ghost predicate MesgsOk(incomplete: map<nat, InMsg>, s: Addr, own: map<Ident, Addr>) {
    forall id {:trigger MesgOk(incomplete[id], id, s, own)} :: id in incomplete ==> MesgOk(incomplete[id], id, s, own)
  }

  lemma MesgsNumbered(incomplete: map<nat, InMsg>, s: Addr, own: map<Ident, Addr>)
    requires MesgsOk(incomplete, s, own)
    ensures Numbered(incomplete)
  {
    forall id | id in incomplete
      ensures incomplete[id].id == id
    {
      assert MesgOk(incomplete[id], id, s, own);
    }
  }

  lemma ReplaceMesgs(sx: Sx, id: nat, i: InMsg, j: InMsg, s: Addr, own: map<Ident, Addr>)
    requires MesgsOk(sx.incomplete, s, own) && MesgOk(i, id, s, own)
    requires KeyOf(j) == KeyOf(i) && j.src == i.src && j.offset == i.offset
    ensures MesgsOk(Replace(sx, id, j).sx.incomplete, s, own)
  {
    assert MesgOk(j, id, s, own);
  }

  lemma ReplaceOk(sx: Sx, id: nat, i: InMsg, j: InMsg, s: Addr, own: map<Ident, Addr>)
    requires SxOk(sx, s, own) && MesgOk(i, id, s, own)
    requires id in sx.incomplete ==> i == sx.incomplete[id]
    requires KeyOf(j) == KeyOf(i) && j.src == i.src && j.offset == i.offset
    requires j.toReceive == 0 ==> j.toGrant == 0
    ensures var h := Replace(sx, id, j);
      && SxOk(h.sx, s, own)
      && (sx.queue != [] ==> h.sx.queue != [] && KeyNotLater(SKey(h.sx), SKey(sx)))
      && (id in sx.incomplete ==> h.sx.queue == sx.queue)
  {
    ReplaceMesgs(sx, id, i, j, s, own);
    if id in sx.incomplete {
      ReplaceKnown(sx, id, j);
    } else {
      MesgsNumbered(sx.incomplete, s, own);
      ReplaceNew(sx, id, j);
    }
  }

  /** prepareGrant lowers the key of the first message while it is in the set: it stays
      first, and when nothing is left to grant the rest of the set is in order. */
  lemma LowerFirst(incomplete: map<nat, InMsg>, queue: seq<nat>, granted: InMsg)
    requires QueueOk(incomplete, queue) && queue != [] && granted.id == queue[0]
    requires forall k :: k in incomplete ==> incomplete[k].id == k
    requires var top := incomplete[queue[0]];
             0 <= granted.toGrant < top.toGrant && granted.size == top.size && granted.created == top.created
    ensures QueueOk(incomplete[queue[0] := granted], if granted.toGrant > 0 then queue else queue[1..])
  {
    QueueInjective(incomplete, queue);
    RestKeys(incomplete, queue, granted);
    LowerFirstKeys(incomplete, queue, granted);
  }

  lemma LowerFirstKeys(incomplete: map<nat, InMsg>, queue: seq<nat>, granted: InMsg)
    requires Sorted(QKeys(incomplete, queue)) && queue != [] && queue[0] in incomplete
    requires KeyOf(incomplete[queue[0]]) == QKeys(incomplete, queue)[0]
    requires Less(KeyOf(granted), KeyOf(incomplete[queue[0]]))
    requires QKeys(incomplete[queue[0] := granted], queue[1..]) == QKeys(incomplete, queue)[1..]
    ensures Sorted(QKeys(incomplete[queue[0] := granted], queue))
    ensures Sorted(QKeys(incomplete[queue[0] := granted], queue[1..]))
  {
    var ks, inc' := QKeys(incomplete, queue), incomplete[queue[0] := granted];
    SortedTail(ks);
    forall k | 0 <= k < |queue|
      ensures QKeys(inc', queue)[k] == ([KeyOf(granted)] + ks[1..])[k]
    {
      if k > 0 { assert queue[1..][k - 1] == queue[k] && QKeys(inc', queue[1..])[k - 1] == ks[1..][k - 1]; }
    }
    assert QKeys(inc', queue) == [KeyOf(granted)] + ks[1..];
    SortedCons(KeyOf(granted), ks);
  }

  lemma RestKeys(incomplete: map<nat, InMsg>, queue: seq<nat>, granted: InMsg)
    requires queue != [] && forall k :: 0 < k < |queue| ==> queue[k] != queue[0]
    ensures QKeys(incomplete[queue[0] := granted], queue[1..]) == QKeys(incomplete, queue)[1..]
    ensures queue[0] !in queue[1..]
    ensures forall id :: id in queue && id != queue[0] ==> id in queue[1..]
  {
    assert queue == [queue[0]] + queue[1..];
    forall k | 0 <= k < |queue[1..]|
      ensures queue[1..][k] != queue[0]
    {
      assert queue[1..][k] == queue[k + 1];
    }
  }

  lemma SortedTail(ks: seq<Key>)
    requires Sorted(ks) && ks != []
    ensures Sorted(ks[1..])
  {
  }

  lemma SortedCons(k: Key, ks: seq<Key>)
    requires Sorted(ks) && ks != [] && Less(k, ks[0])
    ensures Sorted([k] + ks[1..])
  {
    var l := [k] + ks[1..];
    forall i, j | 0 <= i < j < |l|
      ensures Less(l[i], l[j])
    {
      if i == 0 && j > 0 { assert Less(ks[0], ks[j]); }
    }
  }

  /** What one call of sendAndScheduleGrant does to the sender. */
  ghost predicate SendOk(cfg: Config, s: Addr, sx: Sx, own: map<Ident, Addr>, r: Sent) {
    && SxOk(r.sx, s, own)
    && Served(cfg, r.sx)
    && r.sx.lastIdx == sx.lastIdx
    && (r.grant.None? ==> r.sx.queue == sx.queue && r.sx.incomplete == sx.incomplete)
    && (r.sx.queue == sx.queue ==> KeyNotLater(SKey(r.sx), SKey(sx)))
    && (r.sx.queue != sx.queue ==> sx.queue != [] && r.sx.queue == sx.queue[1..] && r.grant.Some?)
  }

  lemma IssueMesgs(cfg: Config, addr: Addr, s: Addr, sx: Sx, len: nat, prio: nat, own: map<Ident, Addr>)
    requires MesgsOk(sx.incomplete, s, own) && sx.queue != [] && TopOk(sx) && len <= Top(sx).toGrant
    ensures MesgsOk(Issue(cfg, addr, s, sx, len, prio).sx.incomplete, s, own)
  {
    var id := sx.queue[0];
    assert MesgOk(Top(sx), id, s, own);
    assert MesgOk(PrepareGrant(Top(sx), len), id, s, own);
  }

  lemma IssueServed(cfg: Config, addr: Addr, s: Addr, sx: Sx, len: nat, prio: nat)
    requires sx.queue != [] && TopOk(sx)
    ensures Served(cfg, Issue(cfg, addr, s, sx, len, prio).sx)
  {
  }

  lemma IssueOk(cfg: Config, addr: Addr, s: Addr, sx: Sx, len: nat, prio: nat, own: map<Ident, Addr>)
    requires SxOk(sx, s, own) && sx.queue != [] && TopOk(sx) && 0 < len <= Top(sx).toGrant
    ensures SendOk(cfg, s, sx, own, Issue(cfg, addr, s, sx, len, prio))
  {
    var granted := PrepareGrant(Top(sx), len);
    MesgsNumbered(sx.incomplete, s, own);
    assert MesgOk(Top(sx), sx.queue[0], s, own);
    LowerFirst(sx.incomplete, sx.queue, granted);
    IssueMesgs(cfg, addr, s, sx, len, prio, own);
    IssueServed(cfg, addr, s, sx, len, prio);
    assert Less(KeyOf(granted), KeyOf(Top(sx)));
  }

  lemma SendAndScheduleOk(cfg: Config, addr: Addr, s: Addr, sx: Sx, prio: nat, own: map<Ident, Addr>)
    requires cfg.Valid() && SxOk(sx, s, own) && sx.queue != [] && TopOk(sx)
    ensures SendOk(cfg, s, sx, own, SendAndSchedule(cfg, addr, s, sx, prio))
  {
    var grantPrio := GrantPrio(cfg, sx, prio);
    if !(sx.timer && sx.lastGrantPrio <= grantPrio) && Top(sx).inFlight < cfg.maxOutstanding {
      IssueOk(cfg, addr, s, sx, Min(Top(sx).toGrant, cfg.grantMax), grantPrio, own);
    }
  }
}

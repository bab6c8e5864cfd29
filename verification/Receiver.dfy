/** The receive scheduler as functions on values: the list of senders that need grants
    and what packets and timers do to it (ReceiveScheduler, SchedSenders). */
module Receiver {
  import opened Wire
  import opened HomaTypes
  import opened Keys
  import opened SenderState
  import opened SchedList

  datatype Rx = Rx(
    addr: Addr,
    sx: map<Addr, Sx>,          // ipSendersMap
    list: seq<Addr>,            // the non-NULL part of senders
    head: int,                  // headIdx
    schedCtr: seq<int>,         // inflightSchedPerPrio
    unschedCtr: seq<int>)       // inflightUnschedPerPrio

  /** A receiver that has heard from nobody. */
  function NewRx(cfg: Config, h: Addr): Rx {
    Rx(h, map[], [], cfg.schedPrios, seq(cfg.allPrio, _ => 0), seq(cfg.allPrio, _ => 0))
  }

  function KeyAt(sx: map<Addr, Sx>, s: Addr): Key {
    if s in sx then SKey(sx[s]) else Key(0, 0, 0, 0)
  }

  function KeysOf(sx: map<Addr, Sx>, list: seq<Addr>): (ks: seq<Key>)
    ensures |ks| == |list|
    ensures forall i :: 0 <= i < |ks| ==> ks[i] == KeyAt(sx, list[i])
  {
    seq(|list|, i requires 0 <= i < |list| => KeyAt(sx, list[i]))
  }

  function LastIdx(rx: Rx, s: Addr): int { if s in rx.sx then rx.sx[s].lastIdx else 0 }

  function NeedsGrants(rx: Rx, s: Addr): bool { s in rx.sx && rx.sx[s].queue != [] }

  /** Number of listed senders that come before `s`. */
  function Rank(rx: Rx, s: Addr): (r: nat)
    ensures r <= |rx.list|
  {
    UpperBound(KeysOf(rx.sx, rx.list), KeyAt(rx.sx, s))
  }

  function PlaceOf(cfg: Config, rx: Rx, s: Addr): Place {
    InsPlace(cfg.schedPrios, cfg.numToGrant, rx.head, |rx.list|, Rank(rx, s), LastIdx(rx, s))
  }

  function Insert(cfg: Config, rx: Rx, s: Addr): Rx {
    var r := Rank(rx, s);
    rx.(list := rx.list[..r] + [s] + rx.list[r..], head := PlaceOf(cfg, rx, s).head)
  }

  /** The first sender a receiver lists gets the last slot with a priority of its own, which
      is that of the worst priority. */
  lemma FirstSlot(cfg: Config, h: Addr, sx: map<Addr, Sx>, s: Addr)
    requires cfg.Valid()
    ensures var rx := NewRx(cfg, h).(sx := sx);
      && PlaceOf(cfg, rx, s) == Place(cfg.schedPrios - 1, cfg.schedPrios - 1)
      && PrioForIdx(cfg, PlaceOf(cfg, rx, s).idx) == cfg.allPrio - 1
  {
  }

  function RemoveAtRank(cfg: Config, rx: Rx, j: nat): Rx
    requires j < |rx.list|
  {
    rx.(list := rx.list[..j] + rx.list[j + 1..],
        head := HeadAfterRemove(cfg.schedPrios, cfg.numToGrant, rx.head, |rx.list|, j),
        sx := Remember(rx.sx, rx.list[j], rx.head + j))
  }

  function Remember(sx: map<Addr, Sx>, s: Addr, idx: int): map<Addr, Sx> {
    if s in sx then sx[s := sx[s].(lastIdx := idx)] else sx
  }

  /** Every listed sender but those in `ex` that needs grants is listed, in key order. */
  ghost predicate RxOk(cfg: Config, own: map<Ident, Addr>, rx: Rx, ex: set<Addr>) {
    && HeadOk(cfg.schedPrios, cfg.numToGrant, rx.head, |rx.list|)
    && (forall s {:trigger SxOk(rx.sx[s], s, own)} :: s in rx.sx ==> SxOk(rx.sx[s], s, own))
    && (forall s {:trigger NeedsGrants(rx, s)} :: s in rx.list <==> NeedsGrants(rx, s) && s !in ex)
    && Sorted(KeysOf(rx.sx, rx.list))
    && |rx.schedCtr| == |rx.unschedCtr| == cfg.allPrio
  }

  lemma KeysFrame(sx: map<Addr, Sx>, list: seq<Addr>, s: Addr, x: Sx)
    requires s !in list || KeyAt(sx, s) == SKey(x)
    ensures KeysOf(sx[s := x], list) == KeysOf(sx, list)
  {
    forall i | 0 <= i < |list|
      ensures KeysOf(sx[s := x], list)[i] == KeysOf(sx, list)[i]
    {
      assert list[i] in list;
    }
  }

  lemma KeysInsert(sx: map<Addr, Sx>, list: seq<Addr>, r: nat, s: Addr)
    requires r <= |list|
    ensures var ks := KeysOf(sx, list);
            KeysOf(sx, list[..r] + [s] + list[r..]) == ks[..r] + [KeyAt(sx, s)] + ks[r..]
  {
  }

  lemma KeysErase(sx: map<Addr, Sx>, list: seq<Addr>, j: nat)
    requires j < |list|
    ensures var ks := KeysOf(sx, list);
            KeysOf(sx, list[..j] + list[j + 1..]) == ks[..j] + ks[j + 1..]
  {
  }

  lemma SKeyIdent(x: Sx, s: Addr, own: map<Ident, Addr>)
    requires SxOk(x, s, own) && x.queue != []
    ensures var k := SKey(x); Ident(k.b, k.c, k.d) in own && own[Ident(k.b, k.c, k.d)] == s
  {
    assert x.queue[0] in x.incomplete;
    assert MesgOk(x.incomplete[x.queue[0]], x.queue[0], s, own);
  }

  lemma Listed(cfg: Config, own: map<Ident, Addr>, rx: Rx, ex: set<Addr>, i: nat)
    requires RxOk(cfg, own, rx, ex) && i < |rx.list|
    ensures NeedsGrants(rx, rx.list[i]) && rx.list[i] !in ex && SxOk(rx.sx[rx.list[i]], rx.list[i], own)
  {
    assert rx.list[i] in rx.list <==> NeedsGrants(rx, rx.list[i]) && rx.list[i] !in ex;
  }

  /** Different senders have different keys. */
  lemma KeyIsNew(cfg: Config, own: map<Ident, Addr>, rx: Rx, ex: set<Addr>, s: Addr)
    requires RxOk(cfg, own, rx, ex) && NeedsGrants(rx, s) && s !in rx.list
    ensures KeyAt(rx.sx, s) !in KeysOf(rx.sx, rx.list)
  {
    SKeyIdent(rx.sx[s], s, own);
    forall i | 0 <= i < |rx.list|
      ensures KeysOf(rx.sx, rx.list)[i] != KeyAt(rx.sx, s)
    {
      Listed(cfg, own, rx, ex, i);
      SKeyIdent(rx.sx[rx.list[i]], rx.list[i], own);
    }
  }

  lemma ListedOnce(cfg: Config, own: map<Ident, Addr>, rx: Rx, ex: set<Addr>)
    requires RxOk(cfg, own, rx, ex)
    ensures forall i, j :: 0 <= i < j < |rx.list| ==> rx.list[i] != rx.list[j]
  {
    var ks := KeysOf(rx.sx, rx.list);
    forall i, j | 0 <= i < j < |rx.list|
      ensures rx.list[i] != rx.list[j]
    {
      assert Less(ks[i], ks[j]);
    }
  }

  lemma InsertedMembers(list: seq<Addr>, r: nat, s: Addr)
    requires r <= |list|
    ensures forall x :: x in list[..r] + [s] + list[r..] <==> x == s || x in list
  {
    assert list == list[..r] + list[r..];
  }

  lemma ErasedMembers(list: seq<Addr>, j: nat)
    requires j < |list| && (forall i, k :: 0 <= i < k < |list| ==> list[i] != list[k])
    ensures forall x :: x in list[..j] + list[j + 1..] <==> x in list && x != list[j]
  {
    var l := list[..j] + list[j + 1..];
    assert list == list[..j] + [list[j]] + list[j + 1..];
    forall i | 0 <= i < |l|
      ensures l[i] != list[j]
    {
      assert l[i] == if i < j then list[i] else list[i + 1];
    }
  }

  /** Listing a sender that needs grants. */
  lemma InsertOk(cfg: Config, own: map<Ident, Addr>, rx: Rx, s: Addr)
    requires RxOk(cfg, own, rx, {s}) && NeedsGrants(rx, s)
    ensures RxOk(cfg, own, Insert(cfg, rx, s), {})
  {
    var r := Rank(rx, s);
    KeyIsNew(cfg, own, rx, {s}, s);
    InsertSorted(KeysOf(rx.sx, rx.list), KeyAt(rx.sx, s));
    KeysInsert(rx.sx, rx.list, r, s);
    InsertedMembers(rx.list, r, s);
    var rx' := Insert(cfg, rx, s);
    forall t
      ensures t in rx'.list <==> NeedsGrants(rx', t) && t !in {}
    {
      assert t in rx.list <==> NeedsGrants(rx, t) && t !in {s};
    }
    InsPlaceOk(cfg.schedPrios, cfg.numToGrant, rx.head, |rx.list|, r, LastIdx(rx, s));
  }

  lemma SetLastIdx(x: Sx, s: Addr, own: map<Ident, Addr>, idx: int)
    requires SxOk(x, s, own)
    ensures SxOk(x.(lastIdx := idx), s, own) && SKey(x.(lastIdx := idx)) == SKey(x)
  {
  }

  lemma RemoveKeys(cfg: Config, rx: Rx, j: nat)
    requires Sorted(KeysOf(rx.sx, rx.list)) && j < |rx.list| && rx.list[j] in rx.sx
    ensures var rx' := RemoveAtRank(cfg, rx, j);
      Sorted(KeysOf(rx'.sx, rx'.list)) && Rank(rx', rx.list[j]) == j
  {
    var s := rx.list[j];
    var rx' := RemoveAtRank(cfg, rx, j);
    assert SKey(rx'.sx[s]) == SKey(rx.sx[s]);
    KeysFrame(rx.sx, rx.list, s, rx'.sx[s]);
    KeysErase(rx'.sx, rx.list, j);
    RemoveSorted(KeysOf(rx.sx, rx.list), j);
  }

  lemma RemoveMembers(cfg: Config, own: map<Ident, Addr>, rx: Rx, j: nat)
    requires RxOk(cfg, own, rx, {}) && j < |rx.list| && rx.list[j] in rx.sx
    ensures var rx' := RemoveAtRank(cfg, rx, j);
      && (forall t :: t in rx'.list <==> NeedsGrants(rx', t) && t !in {rx.list[j]})
      && (forall t :: t in rx'.sx ==> SxOk(rx'.sx[t], t, own))
  {
    var s := rx.list[j];
    SetLastIdx(rx.sx[s], s, own, rx.head + j);
    ListedOnce(cfg, own, rx, {});
    ErasedMembers(rx.list, j);
    var rx' := RemoveAtRank(cfg, rx, j);
    forall t
      ensures t in rx'.list <==> NeedsGrants(rx', t) && t !in {s}
    {
      assert NeedsGrants(rx', t) == NeedsGrants(rx, t);
      assert t in rx.list <==> NeedsGrants(rx, t) && t !in {};
    }
  }

  /** Taking the sender of rank `j` out of the list. */
  lemma RemoveOk(cfg: Config, own: map<Ident, Addr>, rx: Rx, j: nat)
    requires RxOk(cfg, own, rx, {}) && j < |rx.list|
    ensures rx.list[j] in rx.sx
    ensures var rx' := RemoveAtRank(cfg, rx, j);
      RxOk(cfg, own, rx', {rx.list[j]}) && NeedsGrants(rx', rx.list[j]) && Rank(rx', rx.list[j]) == j
  {
    Listed(cfg, own, rx, {}, j);
    RemoveKeys(cfg, rx, j);
    RemoveMembers(cfg, own, rx, j);
    RemoveKeepsHead(cfg.schedPrios, cfg.numToGrant, rx.head, |rx.list|, j);
  }

  lemma PutBack(list: seq<Addr>, j: nat)
    requires j < |list|
    ensures var l := list[..j] + list[j + 1..]; l[..j] + [list[j]] + l[j..] == list
  {
    assert list == list[..j] + [list[j]] + list[j + 1..];
  }

  /** Removing a sender and inserting it again with its key unchanged restores the list,
      the head and every slot, whether removal nulled the head slot or erased one. */
  lemma RemoveThenInsert(cfg: Config, own: map<Ident, Addr>, rx: Rx, j: nat)
    requires RxOk(cfg, own, rx, {}) && j < |rx.list|
    ensures rx.list[j] in rx.sx
    ensures var rx' := RemoveAtRank(cfg, rx, j);
      && PlaceOf(cfg, rx', rx.list[j]) == Place(rx.head + j, rx.head)
      && Insert(cfg, rx', rx.list[j]) == rx.(sx := rx'.sx)
  {
    RemoveOk(cfg, own, rx, j);
    InsPlaceUndoesRemove(cfg.schedPrios, cfg.numToGrant, rx.head, |rx.list|, j);
    PutBack(rx.list, j);
  }

  function Bump(ctr: seq<int>, prio: nat, d: int): seq<int> {
    if prio < |ctr| then ctr[prio := ctr[prio] + d] else ctr
  }

  /** Over all priorities. */
  function CtrSum(ctr: seq<int>): int { if ctr == [] then 0 else ctr[0] + CtrSum(ctr[1..]) }

  lemma {:induction false} BumpSum(ctr: seq<int>, prio: nat, d: int)
    ensures CtrSum(Bump(ctr, prio, d)) == CtrSum(ctr) + if prio < |ctr| then d else 0
  {
    if 0 < prio < |ctr| {
      BumpSum(ctr[1..], prio - 1, d);
      assert Bump(ctr, prio, d)[1..] == Bump(ctr[1..], prio - 1, d);
    } else if prio < |ctr| {
      assert Bump(ctr, 0, d)[1..] == ctr[1..];
    }
  }

  /** getPrioForMesg */
  function PrioForIdx(cfg: Config, sInd: int): int {
    Min(sInd + cfg.allPrio - cfg.schedPrios, cfg.allPrio - 1)
  }

  datatype Granted = Granted(rx: Rx, grants: seq<Pkt>)

  ghost predicate Unlisted(cfg: Config, own: map<Ident, Addr>, rx: Rx, s: Addr) {
    cfg.Valid() && RxOk(cfg, own, rx, {s}) && NeedsGrants(rx, s)
  }

  lemma TopIsOk(x: Sx, s: Addr, own: map<Ident, Addr>)
    requires SxOk(x, s, own)
    ensures TopOk(x)
  {
    if x.queue != [] {
      assert MesgOk(x.incomplete[x.queue[0]], x.queue[0], s, own);
    }
  }

  /** sendAndScheduleGrant for an unlisted sender, at the priority of the slot it would
      take, with the receiver-wide counter of scheduled bytes. */
  ghost function GrantStep(cfg: Config, own: map<Ident, Addr>, rx: Rx, s: Addr): (g: Granted)
    requires Unlisted(cfg, own, rx, s) && Rank(rx, s) < cfg.numToGrant
    ensures s in g.rx.sx
  {
    TopIsOk(rx.sx[s], s, own);
    GrantedSlot(cfg.schedPrios, cfg.numToGrant, rx.head, |rx.list|, Rank(rx, s), LastIdx(rx, s));
    SentBy(rx, s, SendAndSchedule(cfg, rx.addr, s, rx.sx[s], PrioForIdx(cfg, PlaceOf(cfg, rx, s).idx)))
  }

  function SentBy(rx: Rx, s: Addr, r: Sent): Granted {
    match r.grant
    case None => Granted(rx.(sx := rx.sx[s := r.sx]), [])
    case Some(g) =>
      Granted(rx.(sx := rx.sx[s := r.sx], schedCtr := Bump(rx.schedCtr, g.prio, DataWire(g))), [g])
  }

  /** The messages that still need grants; every further round of granting has fewer. */
  ghost function Pending(rx: Rx): set<(Addr, nat)> {
    set s, id | s in rx.sx && id in rx.sx[s].queue :: (s, id)
  }

  ghost predicate Settled(cfg: Config, rx: Rx, s: Addr) {
    NeedsGrants(rx, s) && Rank(rx, s) < cfg.numToGrant
  }

  /** Granting one sender leaves the list and every other sender alone. */
  ghost predicate OnlyTouches(rx: Rx, rx': Rx, s: Addr) {
    && rx'.list == rx.list && rx'.head == rx.head && rx'.addr == rx.addr
    && s in rx.sx && rx'.sx.Keys == rx.sx.Keys
    && forall t :: t in rx.sx && t != s ==> rx'.sx[t] == rx.sx[t]
  }

  lemma SentByOk(cfg: Config, own: map<Ident, Addr>, rx: Rx, s: Addr, r: Sent)
    requires Unlisted(cfg, own, rx, s) && SxOk(r.sx, s, own)
    ensures RxOk(cfg, own, SentBy(rx, s, r).rx, {s})
    ensures OnlyTouches(rx, SentBy(rx, s, r).rx, s) && SentBy(rx, s, r).rx.sx[s] == r.sx
    ensures KeysOf(SentBy(rx, s, r).rx.sx, rx.list) == KeysOf(rx.sx, rx.list)
  {
    var g := SentBy(rx, s, r);
    assert s in rx.list <==> NeedsGrants(rx, s) && s !in {s};
    KeysFrame(rx.sx, rx.list, s, r.sx);
    forall t
      ensures t in g.rx.list <==> NeedsGrants(g.rx, t) && t !in {s}
    {
      assert t in rx.list <==> NeedsGrants(rx, t) && t !in {s};
    }
  }

  lemma RankKept(rx: Rx, rx': Rx, s: Addr)
    requires OnlyTouches(rx, rx', s) && KeysOf(rx'.sx, rx'.list) == KeysOf(rx.sx, rx.list)
    requires Sorted(KeysOf(rx.sx, rx.list)) && KeyNotLater(KeyAt(rx'.sx, s), KeyAt(rx.sx, s))
    ensures Rank(rx', s) <= Rank(rx, s)
  {
    UpperBoundMonotone(KeysOf(rx.sx, rx.list), KeyAt(rx'.sx, s), KeyAt(rx.sx, s));
  }

  lemma GrantStepOk(cfg: Config, own: map<Ident, Addr>, rx: Rx, s: Addr)
    requires Unlisted(cfg, own, rx, s) && Rank(rx, s) < cfg.numToGrant
    ensures var g := GrantStep(cfg, own, rx, s);
      && RxOk(cfg, own, g.rx, {s})
      && OnlyTouches(rx, g.rx, s)
      && Served(cfg, g.rx.sx[s]) && g.rx.sx[s].lastIdx == rx.sx[s].lastIdx
      && (!Settled(cfg, g.rx, s) ==> g.grants != [] && g.rx.sx[s].queue == rx.sx[s].queue[1..])
  {
    TopIsOk(rx.sx[s], s, own);
    GrantedSlot(cfg.schedPrios, cfg.numToGrant, rx.head, |rx.list|, Rank(rx, s), LastIdx(rx, s));
    var prio := PrioForIdx(cfg, PlaceOf(cfg, rx, s).idx);
    SendAndScheduleOk(cfg, rx.addr, s, rx.sx[s], prio, own);
    var r := SendAndSchedule(cfg, rx.addr, s, rx.sx[s], prio);
    SentByOk(cfg, own, rx, s, r);
    if r.sx.queue == rx.sx[s].queue {
      RankKept(rx, SentBy(rx, s, r).rx, s);
    }
  }

  lemma PendingFalls(rx: Rx, rx': Rx, s: Addr)
    requires s in rx.sx && rx.sx[s].queue != [] && s in rx'.sx && rx'.sx[s].queue == rx.sx[s].queue[1..]
    requires rx.sx[s].queue[0] !in rx.sx[s].queue[1..]
    requires forall t :: t in rx'.sx && t != s ==> t in rx.sx && rx'.sx[t].queue == rx.sx[t].queue
    ensures Pending(rx') < Pending(rx)
  {
    var q := rx.sx[s].queue;
    assert (s, q[0]) in Pending(rx) && (s, q[0]) !in Pending(rx');
    forall e | e in Pending(rx')
      ensures e in Pending(rx)
    {
      if e.0 == s { assert e.1 in q; }
    }
  }

  /** After granting `s`: list it if it still needs grants. */
  ghost function Relist(cfg: Config, rx: Rx, s: Addr): Rx {
    if NeedsGrants(rx, s) then Insert(cfg, rx, s) else rx
  }

  lemma RelistOk(cfg: Config, own: map<Ident, Addr>, rx: Rx, s: Addr)
    requires RxOk(cfg, own, rx, {s})
    ensures RxOk(cfg, own, Relist(cfg, rx, s), {})
  {
    if NeedsGrants(rx, s) {
      InsertOk(cfg, own, rx, s);
    }
  }

  /** The receiver after sender `s` had its turn and was listed again if need be. */
  ghost function AfterGrant(cfg: Config, own: map<Ident, Addr>, rx: Rx, s: Addr): Rx
    requires Unlisted(cfg, own, rx, s) && Rank(rx, s) < cfg.numToGrant
  {
    Relist(cfg, GrantStep(cfg, own, rx, s).rx, s)
  }

  /** `s` stays among the granted senders, or there is nobody to take its place. */
  ghost predicate Done(cfg: Config, own: map<Ident, Addr>, rx: Rx, s: Addr)
    requires Unlisted(cfg, own, rx, s) && Rank(rx, s) < cfg.numToGrant
  {
    Settled(cfg, GrantStep(cfg, own, rx, s).rx, s) || |AfterGrant(cfg, own, rx, s).list| < cfg.numToGrant
  }

  ghost function NextSender(cfg: Config, own: map<Ident, Addr>, rx: Rx, s: Addr): Addr
    requires Unlisted(cfg, own, rx, s) && Rank(rx, s) < cfg.numToGrant && !Done(cfg, own, rx, s)
  {
    AfterGrant(cfg, own, rx, s).list[cfg.numToGrant - 1]
  }

  ghost function NextRx(cfg: Config, own: map<Ident, Addr>, rx: Rx, s: Addr): Rx
    requires Unlisted(cfg, own, rx, s) && Rank(rx, s) < cfg.numToGrant && !Done(cfg, own, rx, s)
  {
    RemoveAtRank(cfg, AfterGrant(cfg, own, rx, s), cfg.numToGrant - 1)
  }

  lemma AfterGrantOk(cfg: Config, own: map<Ident, Addr>, rx: Rx, s: Addr)
    requires Unlisted(cfg, own, rx, s) && Rank(rx, s) < cfg.numToGrant
    ensures RxOk(cfg, own, AfterGrant(cfg, own, rx, s), {})
  {
    GrantStepOk(cfg, own, rx, s);
    RelistOk(cfg, own, GrantStep(cfg, own, rx, s).rx, s);
  }

  lemma RemoveUnlists(cfg: Config, own: map<Ident, Addr>, rx: Rx, j: nat)
    requires cfg.Valid() && RxOk(cfg, own, rx, {}) && j < |rx.list|
    ensures Unlisted(cfg, own, RemoveAtRank(cfg, rx, j), rx.list[j])
    ensures Rank(RemoveAtRank(cfg, rx, j), rx.list[j]) == j
  {
    RemoveOk(cfg, own, rx, j);
  }

  lemma PendingAfter(cfg: Config, rx: Rx, rx1: Rx, rx2: Rx, s: Addr)
    requires s in rx.sx && rx.sx[s].queue != [] && s in rx1.sx && rx1.sx[s].queue == rx.sx[s].queue[1..]
    requires QueueOk(rx.sx[s].incomplete, rx.sx[s].queue)
    requires forall t :: t in rx1.sx && t != s ==> t in rx.sx && rx1.sx[t] == rx.sx[t]
    requires rx2.sx == rx1.sx && |rx2.list| >= cfg.numToGrant >= 1
    ensures Pending(RemoveAtRank(cfg, rx2, cfg.numToGrant - 1)) < Pending(rx)
  {
    QueueInjective(rx.sx[s].incomplete, rx.sx[s].queue);
    PendingFalls(rx, rx1, s);
    SamePending(cfg, rx1, rx2, cfg.numToGrant - 1);
  }

  lemma SamePending(cfg: Config, rx: Rx, rx': Rx, j: nat)
    requires rx'.sx == rx.sx && j < |rx'.list|
    ensures Pending(RemoveAtRank(cfg, rx', j)) == Pending(rx)
  {
    var a, b := Pending(RemoveAtRank(cfg, rx', j)), Pending(rx);
    forall e
      ensures e in a <==> e in b
    {
    }
  }

  /** The next sender is there, may be granted, and fewer messages need grants than before. */
  lemma NextOk(cfg: Config, own: map<Ident, Addr>, rx: Rx, s: Addr)
    requires Unlisted(cfg, own, rx, s) && Rank(rx, s) < cfg.numToGrant && !Done(cfg, own, rx, s)
    ensures Unlisted(cfg, own, NextRx(cfg, own, rx, s), NextSender(cfg, own, rx, s))
    ensures Rank(NextRx(cfg, own, rx, s), NextSender(cfg, own, rx, s)) < cfg.numToGrant
    ensures Pending(NextRx(cfg, own, rx, s)) < Pending(rx)
  {
    NextUnlisted(cfg, own, rx, s);
    NextFewer(cfg, own, rx, s);
  }

  lemma NextUnlisted(cfg: Config, own: map<Ident, Addr>, rx: Rx, s: Addr)
    requires Unlisted(cfg, own, rx, s) && Rank(rx, s) < cfg.numToGrant && !Done(cfg, own, rx, s)
    ensures Unlisted(cfg, own, NextRx(cfg, own, rx, s), NextSender(cfg, own, rx, s))
    ensures Rank(NextRx(cfg, own, rx, s), NextSender(cfg, own, rx, s)) < cfg.numToGrant
  {
    AfterGrantOk(cfg, own, rx, s);
    RemoveUnlists(cfg, own, AfterGrant(cfg, own, rx, s), cfg.numToGrant - 1);
    NextIs(cfg, own, rx, s);
  }

  lemma NextIs(cfg: Config, own: map<Ident, Addr>, rx: Rx, s: Addr)
    requires Unlisted(cfg, own, rx, s) && Rank(rx, s) < cfg.numToGrant && !Done(cfg, own, rx, s)
    ensures AfterGrant(cfg, own, rx, s) == Relist(cfg, GrantStep(cfg, own, rx, s).rx, s)
    ensures cfg.numToGrant - 1 < |AfterGrant(cfg, own, rx, s).list|
    ensures NextRx(cfg, own, rx, s) == RemoveAtRank(cfg, AfterGrant(cfg, own, rx, s), cfg.numToGrant - 1)
    ensures NextSender(cfg, own, rx, s) == AfterGrant(cfg, own, rx, s).list[cfg.numToGrant - 1]
  {
  }

  lemma NextFewer(cfg: Config, own: map<Ident, Addr>, rx: Rx, s: Addr)
    requires Unlisted(cfg, own, rx, s) && Rank(rx, s) < cfg.numToGrant && !Done(cfg, own, rx, s)
    ensures Pending(NextRx(cfg, own, rx, s)) < Pending(rx)
  {
    TookFirst(cfg, own, rx, s);
    RelistSx(cfg, GrantStep(cfg, own, rx, s).rx, s);
    PendingAfter(cfg, rx, GrantStep(cfg, own, rx, s).rx, AfterGrant(cfg, own, rx, s), s);
  }

  /** The first message of a sender that loses its place needs no more grants. */
  lemma TookFirst(cfg: Config, own: map<Ident, Addr>, rx: Rx, s: Addr)
    requires Unlisted(cfg, own, rx, s) && Rank(rx, s) < cfg.numToGrant && !Done(cfg, own, rx, s)
    ensures s in rx.sx && rx.sx[s].queue != [] && QueueOk(rx.sx[s].incomplete, rx.sx[s].queue)
    ensures var g := GrantStep(cfg, own, rx, s).rx;
      s in g.sx && g.sx[s].queue == rx.sx[s].queue[1..] && OnlyTouches(rx, g, s)
  {
    GrantStepOk(cfg, own, rx, s);
    assert SxOk(rx.sx[s], s, own);
  }

  lemma RelistSx(cfg: Config, rx: Rx, s: Addr)
    ensures Relist(cfg, rx, s).sx == rx.sx
  {
  }

  /** Grants an unlisted sender of sufficient rank.  If that takes it off the granted
      senders, the sender that thereby becomes the last granted one gets its turn. */
  ghost function Settle(cfg: Config, own: map<Ident, Addr>, rx: Rx, s: Addr): Granted
    requires Unlisted(cfg, own, rx, s) && Rank(rx, s) < cfg.numToGrant
    decreases Pending(rx)
  {
    if Done(cfg, own, rx, s) then Granted(AfterGrant(cfg, own, rx, s), GrantStep(cfg, own, rx, s).grants)
    else
      NextOk(cfg, own, rx, s);
      var next := Settle(cfg, own, NextRx(cfg, own, rx, s), NextSender(cfg, own, rx, s));
      Granted(next.rx, GrantStep(cfg, own, rx, s).grants + next.grants)
  }

  /** What granting never touches. */
  ghost predicate SameFrame(rx: Rx, rx': Rx) {
    rx'.addr == rx.addr && rx'.sx.Keys == rx.sx.Keys && rx'.unschedCtr == rx.unschedCtr
  }

  lemma AfterGrantFrame(cfg: Config, own: map<Ident, Addr>, rx: Rx, s: Addr)
    requires Unlisted(cfg, own, rx, s) && Rank(rx, s) < cfg.numToGrant
    ensures SameFrame(rx, AfterGrant(cfg, own, rx, s))
    ensures !Done(cfg, own, rx, s) ==> SameFrame(rx, NextRx(cfg, own, rx, s))
  {
    GrantStepFrame(cfg, own, rx, s);
    RelistFrame(cfg, rx, GrantStep(cfg, own, rx, s).rx, s);
    if !Done(cfg, own, rx, s) {
      RemovedFrame(cfg, rx, AfterGrant(cfg, own, rx, s), cfg.numToGrant - 1);
    }
  }

  lemma GrantStepFrame(cfg: Config, own: map<Ident, Addr>, rx: Rx, s: Addr)
    requires Unlisted(cfg, own, rx, s) && Rank(rx, s) < cfg.numToGrant
    ensures SameFrame(rx, GrantStep(cfg, own, rx, s).rx)
  {
  }

  lemma RelistFrame(cfg: Config, rx: Rx, rx': Rx, s: Addr)
    requires SameFrame(rx, rx')
    ensures SameFrame(rx, Relist(cfg, rx', s))
  {
  }

  lemma RemovedFrame(cfg: Config, rx: Rx, rx': Rx, j: nat)
    requires SameFrame(rx, rx') && j < |rx'.list|
    ensures SameFrame(rx, RemoveAtRank(cfg, rx', j))
  {
  }
}

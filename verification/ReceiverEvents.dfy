/** Packet arrivals and grant timers at a receiver, and what every such event keeps: the
    list of senders, and work conservation of the grant scheduler. */
module ReceiverEvents {
  import opened Wire
  import opened Priority
  import opened HomaTypes
  import opened Keys
  import opened SenderState
  import opened SchedList
  import opened Receiver

  /** Each of the first `k` listed senders waits for its timer or for packets under way. */
  ghost predicate ServedFirst(cfg: Config, rx: Rx, k: int) {
    forall i :: 0 <= i < k && i < |rx.list| ==> rx.list[i] in rx.sx && Served(cfg, rx.sx[rx.list[i]])
  }

  lemma ServedInsert(cfg: Config, rx: Rx, s: Addr)
    requires s in rx.sx && Served(cfg, rx.sx[s])
    requires cfg.numToGrant >= 1 && ServedFirst(cfg, rx, cfg.numToGrant - 1)
    ensures Rank(rx, s) < cfg.numToGrant ==> ServedFirst(cfg, Insert(cfg, rx, s), cfg.numToGrant)
    ensures Rank(rx, s) >= cfg.numToGrant ==> ServedFirst(cfg, Insert(cfg, rx, s), cfg.numToGrant - 1)
  {
    var r, rx' := Rank(rx, s), Insert(cfg, rx, s);
    forall i | 0 <= i < |rx'.list| && i < cfg.numToGrant && (r < cfg.numToGrant || i < cfg.numToGrant - 1)
      ensures rx'.list[i] in rx'.sx && Served(cfg, rx'.sx[rx'.list[i]])
    {
      assert rx'.list[i] == if i < r then rx.list[i] else if i == r then s else rx.list[i - 1];
    }
  }

  lemma ServedAfterGrant(cfg: Config, own: map<Ident, Addr>, rx: Rx, s: Addr)
    requires Unlisted(cfg, own, rx, s) && Rank(rx, s) < cfg.numToGrant
    requires ServedFirst(cfg, rx, cfg.numToGrant - 1)
    ensures Done(cfg, own, rx, s) ==> ServedFirst(cfg, AfterGrant(cfg, own, rx, s), cfg.numToGrant)
    ensures !Done(cfg, own, rx, s) ==> ServedFirst(cfg, AfterGrant(cfg, own, rx, s), cfg.numToGrant - 1)
  {
    GrantStepOk(cfg, own, rx, s);
    var g := GrantStep(cfg, own, rx, s).rx;
    forall i | 0 <= i < cfg.numToGrant - 1 && i < |g.list|
      ensures g.list[i] in g.sx && Served(cfg, g.sx[g.list[i]])
    {
      assert g.list[i] in rx.list && rx.list[i] in rx.sx;
    }
    if NeedsGrants(g, s) {
      ServedInsert(cfg, g, s);
    }
  }

  lemma ServedAfterRemove(cfg: Config, rx: Rx, j: nat, k: int)
    requires j < |rx.list| && ServedFirst(cfg, rx, k)
    ensures j < k ==> ServedFirst(cfg, RemoveAtRank(cfg, rx, j), k - 1)
    ensures j >= k ==> ServedFirst(cfg, RemoveAtRank(cfg, rx, j), k)
  {
    var rx' := RemoveAtRank(cfg, rx, j);
    forall i | 0 <= i < (if j < k then k - 1 else k) && i < |rx'.list|
      ensures rx'.list[i] in rx'.sx && Served(cfg, rx'.sx[rx'.list[i]])
    {
      var t := rx.list[if i < j then i else i + 1];
      assert rx'.list[i] == t;
      assert Served(cfg, rx.sx[t]);
    }
  }

  /** Granting keeps the list in order; the recursion never asks for a sender that is not
      there and ends. */
  lemma {:induction false} SettleOk(cfg: Config, own: map<Ident, Addr>, rx: Rx, s: Addr)
    requires Unlisted(cfg, own, rx, s) && Rank(rx, s) < cfg.numToGrant
    ensures RxOk(cfg, own, Settle(cfg, own, rx, s).rx, {}) && SameFrame(rx, Settle(cfg, own, rx, s).rx)
    decreases Pending(rx)
  {
    AfterGrantFrame(cfg, own, rx, s);
    if Done(cfg, own, rx, s) {
      AfterGrantOk(cfg, own, rx, s);
    } else {
      NextOk(cfg, own, rx, s);
      SettleOk(cfg, own, NextRx(cfg, own, rx, s), NextSender(cfg, own, rx, s));
    }
  }

  /** Granting leaves every granted sender served. */
  lemma {:induction false} SettleServes(cfg: Config, own: map<Ident, Addr>, rx: Rx, s: Addr)
    requires Unlisted(cfg, own, rx, s) && Rank(rx, s) < cfg.numToGrant
    requires ServedFirst(cfg, rx, cfg.numToGrant - 1)
    ensures ServedFirst(cfg, Settle(cfg, own, rx, s).rx, cfg.numToGrant)
    decreases Pending(rx)
  {
    ServedAfterGrant(cfg, own, rx, s);
    if !Done(cfg, own, rx, s) {
      NextOk(cfg, own, rx, s);
      ServedAfterRemove(cfg, AfterGrant(cfg, own, rx, s), cfg.numToGrant - 1, cfg.numToGrant - 1);
      SettleServes(cfg, own, NextRx(cfg, own, rx, s), NextSender(cfg, own, rx, s));
    }
  }

  /** remove: the list is searched by key, and an empty list is reset. */
  function Remove(cfg: Config, rx: Rx, s: Addr): Rx {
    if rx.list == [] then rx.(head := cfg.schedPrios)
    else if !NeedsGrants(rx, s) then rx
    else
      var j := LowerBound(KeysOf(rx.sx, rx.list), KeyAt(rx.sx, s));
      if j < |rx.list| then RemoveAtRank(cfg, rx, j) else rx
  }

  /** The search by key finds the sender itself. */
  lemma RemoveFinds(cfg: Config, own: map<Ident, Addr>, rx: Rx, s: Addr) returns (j: int)
    requires cfg.Valid() && RxOk(cfg, own, rx, {})
    ensures RxOk(cfg, own, Remove(cfg, rx, s), {s})
    ensures NeedsGrants(rx, s) <==> 0 <= j
    ensures 0 <= j ==> j < |rx.list| && rx.list[j] == s && Remove(cfg, rx, s) == RemoveAtRank(cfg, rx, j)
    ensures j < 0 ==> Remove(cfg, rx, s) == if rx.list == [] then rx.(head := cfg.schedPrios) else rx
  {
    j := -1;
    if NeedsGrants(rx, s) {
      assert s in rx.list;
      j := Position(rx.list, s);
      LowerBoundFinds(KeysOf(rx.sx, rx.list), j);
      RemoveOk(cfg, own, rx, j);
    } else {
      assert s !in rx.list;
      SameListed(cfg, own, rx, Remove(cfg, rx, s), s);
    }
  }

  /** A sender that needs no grants may count as taken out. */
  lemma SameListed(cfg: Config, own: map<Ident, Addr>, rx: Rx, rx': Rx, s: Addr)
    requires RxOk(cfg, own, rx, {}) && !NeedsGrants(rx, s)
    requires rx' == rx.(head := rx'.head) && HeadOk(cfg.schedPrios, cfg.numToGrant, rx'.head, |rx.list|)
    ensures RxOk(cfg, own, rx', {s})
  {
    forall t
      ensures t in rx'.list <==> NeedsGrants(rx', t) && t !in {s}
    {
      assert t in rx.list <==> NeedsGrants(rx, t) && t !in {};
    }
  }

  /** What happens once the state of an unlisted sender is up to date. */
  ghost function React(cfg: Config, own: map<Ident, Addr>, rx: Rx, s: Addr): Granted
    requires cfg.Valid() && RxOk(cfg, own, rx, {s})
  {
    if !NeedsGrants(rx, s) then Granted(rx, [])
    else if Rank(rx, s) >= cfg.numToGrant then Granted(Insert(cfg, rx, s), [])
    else Settle(cfg, own, rx, s)
  }

  lemma ReactOk(cfg: Config, own: map<Ident, Addr>, rx: Rx, s: Addr)
    requires cfg.Valid() && RxOk(cfg, own, rx, {s})
    ensures var g := React(cfg, own, rx, s);
      && RxOk(cfg, own, g.rx, {})
      && SameFrame(rx, g.rx)
      && (ServedFirst(cfg, rx, cfg.numToGrant)
          || (NeedsGrants(rx, s) && Rank(rx, s) < cfg.numToGrant && ServedFirst(cfg, rx, cfg.numToGrant - 1))
          ==> ServedFirst(cfg, g.rx, cfg.numToGrant))
  {
    if NeedsGrants(rx, s) {
      if Rank(rx, s) >= cfg.numToGrant {
        InsertOk(cfg, own, rx, s);
        var g := React(cfg, own, rx, s).rx;
        assert forall i :: 0 <= i < cfg.numToGrant && i < |g.list| ==> g.list[i] == rx.list[i];
      } else {
        SettleOk(cfg, own, rx, s);
        if ServedFirst(cfg, rx, cfg.numToGrant - 1) {
          SettleServes(cfg, own, rx, s);
        }
      }
    }
  }

  function AddTable(ctr: seq<int>, t: seq<PrioBytes>): (c: seq<int>)
    ensures |c| == |ctr|
    decreases |t|
  {
    if t == [] then ctr
    else AddTable(Bump(ctr, t[0].prio, BytesOnWire(t[0].bytes, UNSCHED_DATA)), t[1..])
  }

  /** Receiver-wide counters: the first packet of a message announces the others, every
      further packet is one that was announced or granted. */
  function CountPkt(rx: Rx, known: bool, p: Pkt): Rx
    requires !p.Grant?
  {
    if !known then
      if p.Unsched? then rx.(unschedCtr := AddTable(rx.unschedCtr, p.hdr.others)) else rx
    else if p.Unsched? then rx.(unschedCtr := Bump(rx.unschedCtr, p.prio, -(DataWire(p) as int)))
    else rx.(schedCtr := Bump(rx.schedCtr, p.prio, -(DataWire(p) as int)))
  }

  function WithSender(cfg: Config, rx: Rx, s: Addr): Rx {
    if s in rx.sx then rx else rx.(sx := rx.sx[s := NewSx(cfg)])
  }

  function SxFor(cfg: Config, rx: Rx, s: Addr): Sx { if s in rx.sx then rx.sx[s] else NewSx(cfg) }

  /** The packet passes the assertions of the handlers and its message's key tells its
      sender apart from all others. */
  ghost predicate Welcome(cfg: Config, own: map<Ident, Addr>, rx: Rx, p: Pkt) {
    && InboundAsserts(SxFor(cfg, rx, p.m.src), p)
    && MesgOk(Lookup(SxFor(cfg, rx, p.m.src), p), p.m.id, p.m.src, own)
  }

  /** The receiver after the packet, before anything is granted; the sender is unlisted. */
  function AfterPkt(cfg: Config, rx: Rx, p: Pkt): Rx
    requires InboundAsserts(SxFor(cfg, rx, p.m.src), p)
  {
    var s := p.m.src;
    var rx1 := Remove(cfg, WithSender(cfg, rx, s), s);
    CountPkt(rx1.(sx := rx1.sx[s := SxAfter(cfg, rx, p)]), p.m.id in SxFor(cfg, rx, s).incomplete, p)
  }

  datatype Arrived = Arrived(rx: Rx, grants: seq<Pkt>, complete: bool)

  /** processReceivedPkt */
  ghost function Arrival(cfg: Config, own: map<Ident, Addr>, rx: Rx, p: Pkt): Arrived
    requires cfg.Valid() && RxOk(cfg, own, rx, {}) && Welcome(cfg, own, rx, p)
  {
    AfterPktOk(cfg, own, rx, p);
    var g := React(cfg, own, AfterPkt(cfg, rx, p), p.m.src);
    Arrived(g.rx, g.grants, HandleInbound(SxFor(cfg, rx, p.m.src), p).complete)
  }

  lemma WithSenderOk(cfg: Config, own: map<Ident, Addr>, rx: Rx, s: Addr)
    requires RxOk(cfg, own, rx, {})
    ensures RxOk(cfg, own, WithSender(cfg, rx, s), {})
  {
    if s !in rx.sx {
      assert !NeedsGrants(rx, s);
      assert s !in rx.list;
      KeysFrame(rx.sx, rx.list, s, NewSx(cfg));
      assert QKeys(map[], []) == [];
      var rx' := WithSender(cfg, rx, s);
      forall t
        ensures t in rx'.list <==> NeedsGrants(rx', t) && t !in {}
      {
        assert t in rx.list <==> NeedsGrants(rx, t) && t !in {};
      }
    }
  }

  /** Changing the state of an unlisted sender does not disturb the list. */
  lemma UpdateUnlisted(cfg: Config, own: map<Ident, Addr>, rx: Rx, s: Addr, x: Sx)
    requires RxOk(cfg, own, rx, {s}) && SxOk(x, s, own)
    ensures RxOk(cfg, own, rx.(sx := rx.sx[s := x]), {s})
    ensures KeysOf(rx.sx[s := x], rx.list) == KeysOf(rx.sx, rx.list)
  {
    assert s in rx.list <==> NeedsGrants(rx, s) && s !in {s};
    assert s !in rx.list;
    KeysFrame(rx.sx, rx.list, s, x);
    var rx' := rx.(sx := rx.sx[s := x]);
    forall t
      ensures t in rx'.list <==> NeedsGrants(rx', t) && t !in {s}
    {
      assert t in rx.list <==> NeedsGrants(rx, t) && t !in {s};
    }
  }

  /** The sender's state after the packet. */
  function SxAfter(cfg: Config, rx: Rx, p: Pkt): Sx
    requires InboundAsserts(SxFor(cfg, rx, p.m.src), p)
  {
    var s := p.m.src;
    var rx1 := Remove(cfg, WithSender(cfg, rx, s), s);
    HandleInbound(SxFor(cfg, rx, s), p).sx.(lastIdx := if s in rx1.sx then rx1.sx[s].lastIdx else 0)
  }

  lemma SxAfterOk(cfg: Config, own: map<Ident, Addr>, rx: Rx, p: Pkt)
    requires cfg.Valid() && RxOk(cfg, own, rx, {}) && Welcome(cfg, own, rx, p)
    ensures SxOk(SxAfter(cfg, rx, p), p.m.src, own)
    ensures NeedsGrants(rx, p.m.src) ==>
              SxAfter(cfg, rx, p).queue != [] && KeyNotLater(SKey(SxAfter(cfg, rx, p)), SKey(rx.sx[p.m.src]))
  {
    var s := p.m.src;
    var x := SxFor(cfg, rx, s);
    HandleInboundOk(x, p, s, own);
    SetLastIdx(HandleInbound(x, p).sx, s, own, SxAfter(cfg, rx, p).lastIdx);
  }

  lemma CountPktOk(cfg: Config, own: map<Ident, Addr>, rx: Rx, known: bool, p: Pkt, ex: set<Addr>)
    requires RxOk(cfg, own, rx, ex) && !p.Grant?
    ensures RxOk(cfg, own, CountPkt(rx, known, p), ex)
  {
    var rx' := CountPkt(rx, known, p);
    forall t
      ensures t in rx'.list <==> NeedsGrants(rx', t) && t !in ex
    {
      assert t in rx.list <==> NeedsGrants(rx, t) && t !in ex;
    }
  }

  lemma Unlists(cfg: Config, own: map<Ident, Addr>, rx: Rx, p: Pkt) returns (j: int)
    requires cfg.Valid() && RxOk(cfg, own, rx, {})
    ensures var rx1 := Remove(cfg, WithSender(cfg, rx, p.m.src), p.m.src);
      && RxOk(cfg, own, rx1, {p.m.src})
      && (NeedsGrants(rx, p.m.src) <==> 0 <= j)
      && (0 <= j ==> j < |rx.list| && rx.list[j] == p.m.src && Rank(rx1, p.m.src) == j)
      && rx1.list == (if 0 <= j then rx.list[..j] + rx.list[j + 1..] else rx.list)
      && KeyAt(rx1.sx, p.m.src) == KeyAt(rx.sx, p.m.src)
  {
    var s := p.m.src;
    var rx0 := WithSender(cfg, rx, s);
    WithSenderOk(cfg, own, rx, s);
    j := RemoveFinds(cfg, own, rx0, s);
    if 0 <= j {
      RemoveOk(cfg, own, rx0, j);
    }
  }

  /** A packet never worsens the rank of its sender and never unlists it. */
  lemma AfterPktRank(cfg: Config, own: map<Ident, Addr>, rx: Rx, p: Pkt) returns (j: int)
    requires cfg.Valid() && RxOk(cfg, own, rx, {}) && Welcome(cfg, own, rx, p)
    ensures RxOk(cfg, own, AfterPkt(cfg, rx, p), {p.m.src})
    ensures NeedsGrants(rx, p.m.src) <==> 0 <= j
    ensures 0 <= j ==> j < |rx.list| && rx.list[j] == p.m.src
    ensures 0 <= j ==> NeedsGrants(AfterPkt(cfg, rx, p), p.m.src) && Rank(AfterPkt(cfg, rx, p), p.m.src) <= j
    ensures AfterPkt(cfg, rx, p).list == if 0 <= j then rx.list[..j] + rx.list[j + 1..] else rx.list
  {
    var s := p.m.src;
    j := Unlists(cfg, own, rx, p);
    var rx1 := Remove(cfg, WithSender(cfg, rx, s), s);
    var x' := SxAfter(cfg, rx, p);
    SxAfterOk(cfg, own, rx, p);
    UpdateUnlisted(cfg, own, rx1, s, x');
    CountPktOk(cfg, own, rx1.(sx := rx1.sx[s := x']), p.m.id in SxFor(cfg, rx, s).incomplete, p, {s});
    if 0 <= j {
      UpperBoundMonotone(KeysOf(rx1.sx, rx1.list), SKey(x'), KeyAt(rx.sx, s));
    }
  }

  lemma RemoveFrame(cfg: Config, rx: Rx, s: Addr)
    ensures Remove(cfg, rx, s).sx.Keys == rx.sx.Keys && Remove(cfg, rx, s).addr == rx.addr
    ensures Remove(cfg, rx, s).schedCtr == rx.schedCtr && Remove(cfg, rx, s).unschedCtr == rx.unschedCtr
    ensures forall t :: t in rx.sx ==>
      Remove(cfg, rx, s).sx[t].(lastIdx := 0) == rx.sx[t].(lastIdx := 0)
  {
  }

  lemma AfterPktFrame(cfg: Config, rx: Rx, p: Pkt)
    requires InboundAsserts(SxFor(cfg, rx, p.m.src), p)
    ensures AfterPkt(cfg, rx, p).addr == rx.addr && AfterPkt(cfg, rx, p).sx.Keys == rx.sx.Keys + {p.m.src}
    ensures forall t :: t in rx.sx && t != p.m.src ==>
      AfterPkt(cfg, rx, p).sx[t].(lastIdx := 0) == rx.sx[t].(lastIdx := 0)
    ensures AfterPkt(cfg, rx, p).sx[p.m.src].(lastIdx := 0)
         == HandleInbound(SxFor(cfg, rx, p.m.src), p).sx.(lastIdx := 0)
  {
    RemoveFrame(cfg, WithSender(cfg, rx, p.m.src), p.m.src);
  }

  lemma AfterPktOk(cfg: Config, own: map<Ident, Addr>, rx: Rx, p: Pkt)
    requires cfg.Valid() && RxOk(cfg, own, rx, {}) && Welcome(cfg, own, rx, p)
    ensures RxOk(cfg, own, AfterPkt(cfg, rx, p), {p.m.src})
  {
    var _ := AfterPktRank(cfg, own, rx, p);
  }

  /** Taking one sender out leaves the others as they were served. */
  lemma ServedWithout(cfg: Config, rx: Rx, rx': Rx, s: Addr, j: int)
    requires ServedFirst(cfg, rx, cfg.numToGrant) && j < |rx.list|
    requires rx'.list == if 0 <= j then rx.list[..j] + rx.list[j + 1..] else rx.list
    requires s !in rx'.list
    requires forall t :: t in rx.sx && t != s ==> t in rx'.sx && rx'.sx[t].(lastIdx := 0) == rx.sx[t].(lastIdx := 0)
    ensures ServedFirst(cfg, rx', cfg.numToGrant - 1)
    ensures !(0 <= j < cfg.numToGrant) ==> ServedFirst(cfg, rx', cfg.numToGrant)
  {
    var k := cfg.numToGrant - if 0 <= j < cfg.numToGrant then 1 else 0;
    forall i | 0 <= i < k && i < |rx'.list|
      ensures rx'.list[i] in rx'.sx && Served(cfg, rx'.sx[rx'.list[i]])
    {
      var t := rx'.list[i];
      assert t == if 0 <= j <= i then rx.list[i + 1] else rx.list[i];
      assert t in rx'.list;
      assert t in rx.sx && Served(cfg, rx.sx[t]);
      SameServed(cfg, rx.sx[t], rx'.sx[t]);
    }
  }

  lemma SameServed(cfg: Config, x: Sx, y: Sx)
    requires x.(lastIdx := 0) == y.(lastIdx := 0)
    ensures Served(cfg, x) == Served(cfg, y)
  {
  }

  /** Work conservation: after every packet each granted sender is served. */
  lemma ArrivalOk(cfg: Config, own: map<Ident, Addr>, rx: Rx, p: Pkt)
    requires cfg.Valid() && RxOk(cfg, own, rx, {}) && Welcome(cfg, own, rx, p)
    requires ServedFirst(cfg, rx, cfg.numToGrant)
    ensures var a := Arrival(cfg, own, rx, p);
      && RxOk(cfg, own, a.rx, {})
      && ServedFirst(cfg, a.rx, cfg.numToGrant)
      && a.rx.addr == rx.addr && a.rx.sx.Keys == rx.sx.Keys + {p.m.src}
  {
    var j := AfterPktRank(cfg, own, rx, p);
    AfterPktFrame(cfg, rx, p);
    var rx' := AfterPkt(cfg, rx, p);
    assert p.m.src !in rx'.list by {
      assert p.m.src in rx'.list <==> NeedsGrants(rx', p.m.src) && p.m.src !in {p.m.src};
    }
    ServedWithout(cfg, rx, rx', p.m.src, j);
    ReactOk(cfg, own, rx', p.m.src);
  }

  function TimerOff(rx: Rx, s: Addr): Rx
    requires s in rx.sx
  {
    rx.(sx := rx.sx[s := rx.sx[s].(timer := false)])
  }

  lemma TimerOffOk(cfg: Config, own: map<Ident, Addr>, rx: Rx, s: Addr)
    requires RxOk(cfg, own, rx, {}) && s in rx.sx
    ensures RxOk(cfg, own, TimerOff(rx, s), {})
  {
    var rx' := TimerOff(rx, s);
    assert SxOk(rx.sx[s], s, own);
    KeysFrame(rx.sx, rx.list, s, rx'.sx[s]);
    forall t
      ensures t in rx'.list <==> NeedsGrants(rx', t) && t !in {}
    {
      assert t in rx.list <==> NeedsGrants(rx, t) && t !in {};
    }
  }

  lemma TimerUnlists(cfg: Config, own: map<Ident, Addr>, rx: Rx, s: Addr) returns (j: int)
    requires cfg.Valid() && RxOk(cfg, own, rx, {}) && s in rx.sx
    ensures var rx' := Remove(cfg, TimerOff(rx, s), s);
      && RxOk(cfg, own, rx', {s})
      && j < |rx.list| && (NeedsGrants(rx', s) <==> 0 <= j)
      && (0 <= j ==> Rank(rx', s) == j)
      && rx'.list == if 0 <= j then rx.list[..j] + rx.list[j + 1..] else rx.list
  {
    TimerOffOk(cfg, own, rx, s);
    var rx0 := TimerOff(rx, s);
    j := RemoveFinds(cfg, own, rx0, s);
    if 0 <= j {
      RemoveOk(cfg, own, rx0, j);
    }
  }

  lemma TimerRemoveOk(cfg: Config, own: map<Ident, Addr>, rx: Rx, s: Addr)
    requires cfg.Valid() && RxOk(cfg, own, rx, {}) && s in rx.sx
    ensures RxOk(cfg, own, Remove(cfg, TimerOff(rx, s), s), {s})
  {
    var _ := TimerUnlists(cfg, own, rx, s);
  }

  /** handleGrantTimerEvent, when the timer of sender `s` has fired */
  ghost function TimerFires(cfg: Config, own: map<Ident, Addr>, rx: Rx, s: Addr): Granted
    requires cfg.Valid() && RxOk(cfg, own, rx, {}) && s in rx.sx
  {
    TimerRemoveOk(cfg, own, rx, s);
    React(cfg, own, Remove(cfg, TimerOff(rx, s), s), s)
  }

  /** Work conservation: after every grant timer each granted sender is served. */
  lemma TimerFiresOk(cfg: Config, own: map<Ident, Addr>, rx: Rx, s: Addr)
    requires cfg.Valid() && RxOk(cfg, own, rx, {}) && s in rx.sx
    requires ServedFirst(cfg, rx, cfg.numToGrant)
    ensures var g := TimerFires(cfg, own, rx, s);
      && RxOk(cfg, own, g.rx, {})
      && ServedFirst(cfg, g.rx, cfg.numToGrant)
      && SameFrame(rx, g.rx)
  {
    var j := TimerUnlists(cfg, own, rx, s);
    var rx' := Remove(cfg, TimerOff(rx, s), s);
    RemoveFrame(cfg, TimerOff(rx, s), s);
    assert s !in rx'.list by {
      assert s in rx'.list <==> NeedsGrants(rx', s) && s !in {s};
    }
    ServedWithout(cfg, rx, rx', s, j);
    ReactOk(cfg, own, rx', s);
  }
}

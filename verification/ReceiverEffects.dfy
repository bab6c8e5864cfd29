/** What receiver events do to individual messages, to the byte counters, and to the
    amount of work left, as seen from outside the scheduler. */
module ReceiverEffects {
  import opened Sums
  import opened HomaTypes
  import opened Inbound
  import opened SenderState
  import opened SchedList
  import opened Receiver
  import opened ReceiverEvents

  type Mesgs = map<Addr, map<nat, InMsg>>

  /** The incomplete messages of a receiver, by sender and number. */
  ghost function MesgsOf(rx: Rx): Mesgs { map s | s in rx.sx :: rx.sx[s].incomplete }

  /** A grant for the next bytes of the message, while less than the limit is outstanding. */
  predicate GrantAllowed(cfg: Config, addr: Addr, i: InMsg, g: Pkt) {
    && g.Grant? && g.dst == addr && g.prio < cfg.allPrio
    && g.first == i.offset && 0 < g.len <= i.toGrant && g.len <= cfg.grantMax
    && i.inFlight < cfg.maxOutstanding
  }

  ghost predicate GrantFits(cfg: Config, addr: Addr, ms: Mesgs, g: Pkt) {
    g.m.src in ms && g.m.id in ms[g.m.src] && GrantAllowed(cfg, addr, ms[g.m.src][g.m.id], g)
  }

  ghost function ApplyGrant(ms: Mesgs, g: Pkt): Mesgs {
    if g.m.src in ms && g.m.id in ms[g.m.src]
    then
      var updated: map<nat, InMsg> := ms[g.m.src][g.m.id := PrepareGrant(ms[g.m.src][g.m.id], g.len)];
      ms[g.m.src := updated]
    else ms
  }

  ghost function ApplyGrants(ms: Mesgs, gs: seq<Pkt>): Mesgs {
    if gs == [] then ms else ApplyGrants(ApplyGrant(ms, gs[0]), gs[1..])
  }

  ghost predicate GrantsFit(cfg: Config, addr: Addr, ms: Mesgs, gs: seq<Pkt>) {
    gs != [] ==> GrantFits(cfg, addr, ms, gs[0]) && GrantsFit(cfg, addr, ApplyGrant(ms, gs[0]), gs[1..])
  }

  ghost function CountGrants(ctr: seq<int>, gs: seq<Pkt>): seq<int>
    decreases |gs|
  {
    if gs == [] then ctr else CountGrants(Bump(ctr, gs[0].prio, DataWire(gs[0])), gs[1..])
  }

  /** Everything outside the scheduler that a sequence of grants changes. */
  ghost predicate Effect(cfg: Config, rx: Rx, g: Granted) {
    && GrantsFit(cfg, rx.addr, MesgsOf(rx), g.grants)
    && MesgsOf(g.rx) == ApplyGrants(MesgsOf(rx), g.grants)
    && g.rx.schedCtr == CountGrants(rx.schedCtr, g.grants)
    && g.rx.unschedCtr == rx.unschedCtr
    && g.rx.addr == rx.addr
  }

  /** A grant is an allowed one for a message of the sender, and is recorded there. */
  predicate SentFits(cfg: Config, addr: Addr, s: Addr, incomplete: map<nat, InMsg>, r: Sent) {
    match r.grant
    case None => r.sx.incomplete == incomplete
    case Some(g) =>
      && g.m.src == s && g.m.id in incomplete && GrantAllowed(cfg, addr, incomplete[g.m.id], g)
      && r.sx.incomplete == incomplete[g.m.id := PrepareGrant(incomplete[g.m.id], g.len)]
  }

  lemma SendFits(cfg: Config, addr: Addr, s: Addr, x: Sx, prio: nat)
    requires cfg.Valid() && x.queue != [] && TopOk(x) && prio < cfg.allPrio
    ensures SentFits(cfg, addr, s, x.incomplete, SendAndSchedule(cfg, addr, s, x, prio))
  {
  }

  lemma SentByEffect(cfg: Config, rx: Rx, s: Addr, r: Sent)
    requires s in rx.sx && SentFits(cfg, rx.addr, s, rx.sx[s].incomplete, r)
    ensures Effect(cfg, rx, SentBy(rx, s, r))
    ensures |SentBy(rx, s, r).grants| <= 1
  {
    var g := SentBy(rx, s, r);
    if r.grant.Some? {
      var p := r.grant.value;
      assert g.grants == [p] && g.grants[1..] == [];
      assert MesgsOf(g.rx) == ApplyGrant(MesgsOf(rx), p);
      assert ApplyGrants(MesgsOf(rx), [p]) == ApplyGrants(ApplyGrant(MesgsOf(rx), p), []);
      assert CountGrants(rx.schedCtr, [p]) == CountGrants(Bump(rx.schedCtr, p.prio, DataWire(p)), []);
      assert GrantFits(cfg, rx.addr, MesgsOf(rx), p);
    } else {
      assert MesgsOf(g.rx) == MesgsOf(rx);
    }
  }

  lemma GrantStepEffect(cfg: Config, own: map<Ident, Addr>, rx: Rx, s: Addr)
    requires Unlisted(cfg, own, rx, s) && Rank(rx, s) < cfg.numToGrant
    ensures Effect(cfg, rx, GrantStep(cfg, own, rx, s))
    ensures |GrantStep(cfg, own, rx, s).grants| <= 1
  {
    TopIsOk(rx.sx[s], s, own);
    GrantedSlot(cfg.schedPrios, cfg.numToGrant, rx.head, |rx.list|, Rank(rx, s), LastIdx(rx, s));
    var prio := PrioForIdx(cfg, PlaceOf(cfg, rx, s).idx);
    SendFits(cfg, rx.addr, s, rx.sx[s], prio);
    SentByEffect(cfg, rx, s, SendAndSchedule(cfg, rx.addr, s, rx.sx[s], prio));
  }

  lemma {:induction false} ApplyConcat(cfg: Config, addr: Addr, ms: Mesgs, ctr: seq<int>, a: seq<Pkt>, b: seq<Pkt>)
    ensures ApplyGrants(ms, a + b) == ApplyGrants(ApplyGrants(ms, a), b)
    ensures CountGrants(ctr, a + b) == CountGrants(CountGrants(ctr, a), b)
    ensures GrantsFit(cfg, addr, ms, a) && GrantsFit(cfg, addr, ApplyGrants(ms, a), b)
        ==> GrantsFit(cfg, addr, ms, a + b)
    decreases |a|
  {
    if a == [] {
      assert a + b == b;
    } else {
      assert (a + b)[1..] == a[1..] + b;
      ApplyConcat(cfg, addr, ApplyGrant(ms, a[0]), Bump(ctr, a[0].prio, DataWire(a[0])), a[1..], b);
    }
  }

  /** Equal but for the indexes the senders were last seen at. */
  ghost predicate SameButIdx(rx: Rx, rx': Rx) {
    && rx'.sx.Keys == rx.sx.Keys
    && (forall t :: t in rx.sx ==> rx'.sx[t].(lastIdx := 0) == rx.sx[t].(lastIdx := 0))
    && rx'.addr == rx.addr && rx'.schedCtr == rx.schedCtr && rx'.unschedCtr == rx.unschedCtr
  }

  lemma MesgsSame(rx: Rx, rx': Rx)
    requires SameButIdx(rx, rx')
    ensures MesgsOf(rx') == MesgsOf(rx)
  {
    forall t | t in rx.sx
      ensures rx'.sx[t].incomplete == rx.sx[t].incomplete
    {
      assert rx'.sx[t].(lastIdx := 0).incomplete == rx'.sx[t].incomplete;
      assert rx.sx[t].(lastIdx := 0).incomplete == rx.sx[t].incomplete;
    }
  }

  lemma RelistSame(cfg: Config, rx: Rx, s: Addr)
    ensures SameButIdx(rx, Relist(cfg, rx, s))
  {
  }

  lemma RemoveAtRankSame(cfg: Config, rx: Rx, j: nat)
    requires j < |rx.list|
    ensures SameButIdx(rx, RemoveAtRank(cfg, rx, j))
  {
  }

  lemma EffectThen(cfg: Config, rx: Rx, g: Granted, rx': Rx, h: Granted)
    requires Effect(cfg, rx, g) && SameButIdx(g.rx, rx') && Effect(cfg, rx', h)
    ensures Effect(cfg, rx, Granted(h.rx, g.grants + h.grants))
  {
    MesgsSame(g.rx, rx');
    ApplyConcat(cfg, rx.addr, MesgsOf(rx), rx.schedCtr, g.grants, h.grants);
  }

  lemma EffectSame(cfg: Config, rx: Rx, g: Granted, rx': Rx)
    requires Effect(cfg, rx, g) && SameButIdx(g.rx, rx')
    ensures Effect(cfg, rx, Granted(rx', g.grants))
  {
    MesgsSame(g.rx, rx');
  }

  lemma SameTrans(a: Rx, b: Rx, c: Rx)
    requires SameButIdx(a, b) && SameButIdx(b, c)
    ensures SameButIdx(a, c)
  {
  }

  lemma AfterGrantSame(cfg: Config, own: map<Ident, Addr>, rx: Rx, s: Addr)
    requires Unlisted(cfg, own, rx, s) && Rank(rx, s) < cfg.numToGrant
    ensures SameButIdx(GrantStep(cfg, own, rx, s).rx, AfterGrant(cfg, own, rx, s))
  {
    RelistSame(cfg, GrantStep(cfg, own, rx, s).rx, s);
  }

  lemma RelistRemovedSame(cfg: Config, rx: Rx, s: Addr, j: nat)
    requires j < |Relist(cfg, rx, s).list|
    ensures SameButIdx(rx, RemoveAtRank(cfg, Relist(cfg, rx, s), j))
  {
    RelistSame(cfg, rx, s);
    RemoveAtRankSame(cfg, Relist(cfg, rx, s), j);
    SameTrans(rx, Relist(cfg, rx, s), RemoveAtRank(cfg, Relist(cfg, rx, s), j));
  }

  /** Granting sends well-formed grants and changes messages only by them. */
  lemma {:induction false} SettleEffect(cfg: Config, own: map<Ident, Addr>, rx: Rx, s: Addr)
    requires Unlisted(cfg, own, rx, s) && Rank(rx, s) < cfg.numToGrant
    ensures Effect(cfg, rx, Settle(cfg, own, rx, s))
    decreases Pending(rx)
  {
    var g := GrantStep(cfg, own, rx, s);
    GrantStepEffect(cfg, own, rx, s);
    if Done(cfg, own, rx, s) {
      AfterGrantSame(cfg, own, rx, s);
      EffectSame(cfg, rx, g, AfterGrant(cfg, own, rx, s));
    } else {
      NextOk(cfg, own, rx, s);
      NextIs(cfg, own, rx, s);
      RelistRemovedSame(cfg, g.rx, s, cfg.numToGrant - 1);
      var rx' := NextRx(cfg, own, rx, s);
      var t := NextSender(cfg, own, rx, s);
      SettleEffect(cfg, own, rx', t);
      EffectThen(cfg, rx, g, rx', Settle(cfg, own, rx', t));
    }
  }

  lemma ReactEffect(cfg: Config, own: map<Ident, Addr>, rx: Rx, s: Addr)
    requires cfg.Valid() && RxOk(cfg, own, rx, {s})
    ensures Effect(cfg, rx, React(cfg, own, rx, s))
  {
    if NeedsGrants(rx, s) && Rank(rx, s) < cfg.numToGrant {
      SettleEffect(cfg, own, rx, s);
    } else {
      MesgsSame(rx, React(cfg, own, rx, s).rx);
    }
  }

  /** What a packet changes before anything is granted. */
  lemma AfterPktMesgs(cfg: Config, rx: Rx, p: Pkt)
    requires InboundAsserts(SxFor(cfg, rx, p.m.src), p)
    ensures MesgsOf(AfterPkt(cfg, rx, p))
         == MesgsOf(rx)[p.m.src := HandleInbound(SxFor(cfg, rx, p.m.src), p).sx.incomplete]
  {
    AfterPktFrame(cfg, rx, p);
    UpdatedMesgs(rx, AfterPkt(cfg, rx, p), p.m.src, HandleInbound(SxFor(cfg, rx, p.m.src), p).sx);
  }

  /** Sender `s` is in state `y`, the others as before, but for the remembered indexes. */
  ghost predicate Updated(rx: Rx, rx': Rx, s: Addr, y: Sx) {
    && rx'.sx.Keys == rx.sx.Keys + {s}
    && (forall t :: t in rx.sx && t != s ==> rx'.sx[t].(lastIdx := 0) == rx.sx[t].(lastIdx := 0))
    && rx'.sx[s].(lastIdx := 0) == y.(lastIdx := 0)
  }

  lemma SameIncomplete(x: Sx, y: Sx)
    requires x.(lastIdx := 0) == y.(lastIdx := 0)
    ensures x.incomplete == y.incomplete && x.timer == y.timer
  {
    assert x.(lastIdx := 0).incomplete == x.incomplete && x.(lastIdx := 0).timer == x.timer;
  }

  lemma UpdatedMesgs(rx: Rx, rx': Rx, s: Addr, y: Sx)
    requires Updated(rx, rx', s, y)
    ensures MesgsOf(rx') == MesgsOf(rx)[s := y.incomplete]
  {
    var a, b := MesgsOf(rx'), MesgsOf(rx)[s := y.incomplete];
    assert a.Keys == b.Keys;
    forall t | t in rx'.sx
      ensures a[t] == b[t]
    {
      SameIncomplete(rx'.sx[t], if t == s then y else rx.sx[t]);
    }
  }

  lemma TimerSame(cfg: Config, rx: Rx, s: Addr)
    requires s in rx.sx
    ensures SameButIdx(TimerOff(rx, s), Remove(cfg, TimerOff(rx, s), s))
    ensures MesgsOf(Remove(cfg, TimerOff(rx, s), s)) == MesgsOf(rx)
  {
    RemoveFrame(cfg, TimerOff(rx, s), s);
    MesgsSame(TimerOff(rx, s), Remove(cfg, TimerOff(rx, s), s));
    assert MesgsOf(TimerOff(rx, s)) == MesgsOf(rx);
  }

  /** A grant timer changes messages only by the grants it leads to. */
  lemma TimerEffect(cfg: Config, own: map<Ident, Addr>, rx: Rx, s: Addr)
    requires cfg.Valid() && RxOk(cfg, own, rx, {}) && s in rx.sx
    ensures Effect(cfg, rx, TimerFires(cfg, own, rx, s))
  {
    TimerRemoveOk(cfg, own, rx, s);
    TimerSame(cfg, rx, s);
    RemoveFrame(cfg, TimerOff(rx, s), s);
    ReactEffect(cfg, own, Remove(cfg, TimerOff(rx, s), s), s);
  }

  // ---- work left ----

  ghost function ToGrant(incomplete: map<nat, InMsg>): map<nat, nat> {
    map id | id in incomplete :: if incomplete[id].toGrant >= 0 then incomplete[id].toGrant as nat else 0
  }

  /** Eight units for each byte to grant, one for a running grant timer. */
  ghost function SxWork(x: Sx): nat {
    8 * Total(ToGrant(x.incomplete)) + if x.timer then 1 else 0
  }

  ghost function SxWorks(rx: Rx): map<Addr, nat> { map s | s in rx.sx :: SxWork(rx.sx[s]) }

  ghost function RxWork(rx: Rx): nat { Total(SxWorks(rx)) }

  lemma ToGrantUpdate(incomplete: map<nat, InMsg>, id: nat, j: InMsg)
    requires j.toGrant >= 0
    ensures id in incomplete && incomplete[id].toGrant >= 0 ==>
      Total(ToGrant(incomplete[id := j])) == Total(ToGrant(incomplete)) - incomplete[id].toGrant + j.toGrant
    ensures id !in incomplete ==>
      Total(ToGrant(incomplete[id := j])) == Total(ToGrant(incomplete)) + j.toGrant
  {
    assert ToGrant(incomplete[id := j]) == ToGrant(incomplete)[id := j.toGrant as nat];
    TotalUpdate(ToGrant(incomplete), id, j.toGrant as nat);
  }

  /** A grant pays for eight units and starts at most one timer. */
  lemma SendWork(cfg: Config, addr: Addr, s: Addr, x: Sx, prio: nat)
    requires cfg.Valid() && x.queue != [] && TopOk(x) && prio < cfg.allPrio
    ensures var r := SendAndSchedule(cfg, addr, s, x, prio);
      SxWork(r.sx) + (if r.grant.Some? then 7 else 0) <= SxWork(x)
  {
    var r := SendAndSchedule(cfg, addr, s, x, prio);
    if r.grant.Some? {
      SendFits(cfg, addr, s, x, prio);
      ToGrantUpdate(x.incomplete, x.queue[0], PrepareGrant(Top(x), r.grant.value.len));
    }
  }

  lemma WorkUpdate(rx: Rx, s: Addr, x: Sx)
    ensures s in rx.sx ==> RxWork(rx.(sx := rx.sx[s := x])) == RxWork(rx) - SxWork(rx.sx[s]) + SxWork(x)
    ensures s !in rx.sx ==> RxWork(rx.(sx := rx.sx[s := x])) == RxWork(rx) + SxWork(x)
  {
    var rx' := rx.(sx := rx.sx[s := x]);
    assert SxWorks(rx') == SxWorks(rx)[s := SxWork(x)];
    TotalUpdate(SxWorks(rx), s, SxWork(x));
    if s in rx.sx {
      TotalAt(SxWorks(rx), s);
    }
  }

  lemma WorkSame(rx: Rx, rx': Rx)
    requires SameButIdx(rx, rx')
    ensures RxWork(rx') == RxWork(rx)
  {
    forall t | t in rx.sx
      ensures SxWork(rx'.sx[t]) == SxWork(rx.sx[t])
    {
      SxWorkSame(rx'.sx[t], rx.sx[t]);
    }
    assert SxWorks(rx') == SxWorks(rx);
  }

  lemma SxWorkSame(x: Sx, y: Sx)
    requires x.(lastIdx := 0) == y.(lastIdx := 0)
    ensures SxWork(x) == SxWork(y)
  {
    assert x.incomplete == y.incomplete && x.timer == y.timer;
  }

  lemma GrantStepWork(cfg: Config, own: map<Ident, Addr>, rx: Rx, s: Addr)
    requires Unlisted(cfg, own, rx, s) && Rank(rx, s) < cfg.numToGrant
    ensures var g := GrantStep(cfg, own, rx, s); RxWork(g.rx) + 7 * |g.grants| <= RxWork(rx)
  {
    TopIsOk(rx.sx[s], s, own);
    GrantedSlot(cfg.schedPrios, cfg.numToGrant, rx.head, |rx.list|, Rank(rx, s), LastIdx(rx, s));
    var prio := PrioForIdx(cfg, PlaceOf(cfg, rx, s).idx);
    SendWork(cfg, rx.addr, s, rx.sx[s], prio);
    var r := SendAndSchedule(cfg, rx.addr, s, rx.sx[s], prio);
    WorkUpdate(rx, s, r.sx);
    assert SxWorks(SentBy(rx, s, r).rx) == SxWorks(rx.(sx := rx.sx[s := r.sx]));
  }

  lemma NextWork(cfg: Config, own: map<Ident, Addr>, rx: Rx, s: Addr)
    requires Unlisted(cfg, own, rx, s) && Rank(rx, s) < cfg.numToGrant && !Done(cfg, own, rx, s)
    ensures RxWork(NextRx(cfg, own, rx, s)) == RxWork(GrantStep(cfg, own, rx, s).rx)
  {
    NextIs(cfg, own, rx, s);
    RelistRemovedSame(cfg, GrantStep(cfg, own, rx, s).rx, s, cfg.numToGrant - 1);
    WorkSame(GrantStep(cfg, own, rx, s).rx, NextRx(cfg, own, rx, s));
  }

  lemma {:induction false} SettleWork(cfg: Config, own: map<Ident, Addr>, rx: Rx, s: Addr)
    requires Unlisted(cfg, own, rx, s) && Rank(rx, s) < cfg.numToGrant
    ensures var g := Settle(cfg, own, rx, s); RxWork(g.rx) + 7 * |g.grants| <= RxWork(rx)
    decreases Pending(rx)
  {
    GrantStepWork(cfg, own, rx, s);
    AfterGrantSame(cfg, own, rx, s);
    WorkSame(GrantStep(cfg, own, rx, s).rx, AfterGrant(cfg, own, rx, s));
    if !Done(cfg, own, rx, s) {
      NextOk(cfg, own, rx, s);
      NextWork(cfg, own, rx, s);
      SettleWork(cfg, own, NextRx(cfg, own, rx, s), NextSender(cfg, own, rx, s));
    }
  }

  lemma ReactWork(cfg: Config, own: map<Ident, Addr>, rx: Rx, s: Addr)
    requires cfg.Valid() && RxOk(cfg, own, rx, {s})
    ensures var g := React(cfg, own, rx, s); RxWork(g.rx) + 7 * |g.grants| <= RxWork(rx)
  {
    if NeedsGrants(rx, s) && Rank(rx, s) < cfg.numToGrant {
      SettleWork(cfg, own, rx, s);
    } else {
      WorkSame(rx, React(cfg, own, rx, s).rx);
    }
  }

  /** A timer that fires has used up its unit. */
  lemma TimerWork(cfg: Config, own: map<Ident, Addr>, rx: Rx, s: Addr)
    requires cfg.Valid() && RxOk(cfg, own, rx, {}) && s in rx.sx && rx.sx[s].timer
    ensures var g := TimerFires(cfg, own, rx, s); RxWork(g.rx) + 7 * |g.grants| < RxWork(rx)
  {
    TimerRemoveOk(cfg, own, rx, s);
    var rx0 := TimerOff(rx, s);
    WorkUpdate(rx, s, rx.sx[s].(timer := false));
    TimerSame(cfg, rx, s);
    WorkSame(rx0, Remove(cfg, rx0, s));
    ReactWork(cfg, own, Remove(cfg, rx0, s), s);
  }

  /** A packet adds no work, except that the first packet of a message brings the bytes
      of the message that need grants. */
  lemma ArrivalWork(cfg: Config, own: map<Ident, Addr>, rx: Rx, p: Pkt)
    requires cfg.Valid() && RxOk(cfg, own, rx, {}) && Welcome(cfg, own, rx, p)
    ensures var a := Arrival(cfg, own, rx, p);
      RxWork(a.rx) + 7 * |a.grants|
      <= RxWork(rx) + (if p.m.id in SxFor(cfg, rx, p.m.src).incomplete then 0
                       else 8 * Lookup(SxFor(cfg, rx, p.m.src), p).toGrant)
  {
    AfterPktOk(cfg, own, rx, p);
    ReactWork(cfg, own, AfterPkt(cfg, rx, p), p.m.src);
    AfterPktWork(cfg, own, rx, p);
  }

  lemma AfterPktWork(cfg: Config, own: map<Ident, Addr>, rx: Rx, p: Pkt)
    requires cfg.Valid() && RxOk(cfg, own, rx, {}) && Welcome(cfg, own, rx, p)
    ensures RxWork(AfterPkt(cfg, rx, p))
      <= RxWork(rx) + (if p.m.id in SxFor(cfg, rx, p.m.src).incomplete then 0
                       else 8 * Lookup(SxFor(cfg, rx, p.m.src), p).toGrant)
  {
    var x := SxFor(cfg, rx, p.m.src);
    HandleWork(x, p);
    AfterPktFrame(cfg, rx, p);
    UpdatedWork(rx, AfterPkt(cfg, rx, p), p.m.src, HandleInbound(x, p).sx);
    if p.m.src !in rx.sx { NoWork(cfg); }
  }

  lemma NoWork(cfg: Config)
    ensures SxWork(NewSx(cfg)) == 0
  {
    assert ToGrant(map[]) == map[];
  }

  lemma UpdatedWork(rx: Rx, rx': Rx, s: Addr, y: Sx)
    requires Updated(rx, rx', s, y)
    ensures RxWork(rx') == RxWork(rx) + SxWork(y) - if s in rx.sx then SxWork(rx.sx[s]) else 0
  {
    var a, b := SxWorks(rx'), SxWorks(rx)[s := SxWork(y)];
    assert a.Keys == b.Keys;
    forall t | t in rx'.sx
      ensures a[t] == b[t]
    {
      SxWorkSame(rx'.sx[t], if t == s then y else rx.sx[t]);
    }
    assert a == b;
    TotalUpdate(SxWorks(rx), s, SxWork(y));
    if s in rx.sx {
      TotalAt(SxWorks(rx), s);
    }
  }

  lemma HandleWork(x: Sx, p: Pkt)
    requires InboundAsserts(x, p) && Lookup(x, p).toGrant >= 0
    ensures SxWork(HandleInbound(x, p).sx)
      <= SxWork(x) + if p.m.id in x.incomplete then 0 else 8 * Lookup(x, p).toGrant
  {
    var id, i := p.m.id, Lookup(x, p);
    var j := Fill(i, p);
    FillKeeps(i, p);
    if j.toReceive == 0 {
      assert ToGrant(x.incomplete - {id}) == ToGrant(x.incomplete) - {id};
      if id in x.incomplete {
        TotalAt(ToGrant(x.incomplete), id);
      } else {
        assert ToGrant(x.incomplete) - {id} == ToGrant(x.incomplete);
      }
    } else {
      ToGrantUpdate(x.incomplete, id, j);
    }
  }
}

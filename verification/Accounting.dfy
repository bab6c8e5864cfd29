/** Exact accounting: at every receiver and every priority the counters of unscheduled and
    scheduled bytes in flight equal the wire size of the packets announced or granted that
    have not arrived.  They therefore never run below zero. */
module Accounting {
  import opened Wrappers
  import opened Sums
  import opened Wire
  import opened Priority
  import opened HomaTypes
  import opened Inbound
  import opened SenderState
  import opened Receiver
  import opened ReceiverEvents
  import opened ReceiverEffects
  import opened Sender
  import opened Message
  import opened Flow
  import opened Protocol
  import opened Safety

  /** Unscheduled wire bytes of one message announced at a priority and not arrived. */
  ghost function UPart(v: View, m: MsgRef, prio: nat): nat {
    if v.known.Some? then Sum(Bag(v), UWire(m, prio)) else 0
  }

  /** Granted wire bytes of one message at a priority, asked for or under way. */
  ghost function SPart(v: View, m: MsgRef, prio: nat): nat { Sum(Bag(v), SWire(m, prio)) }

  ghost function UParts(w: World, f: Net, d: Addr, prio: nat): map<MsgRef, nat>
    requires HostsOk(w, f)
  {
    map m | m in w && w[m].dst == d :: UPart(ViewOf(w, f, m), m, prio)
  }

  ghost function SParts(w: World, f: Net, d: Addr, prio: nat): map<MsgRef, nat>
    requires HostsOk(w, f)
  {
    map m | m in w && w[m].dst == d :: SPart(ViewOf(w, f, m), m, prio)
  }

  /** What is in flight to receiver `d` at a priority, over all messages. */
  ghost function USum(w: World, f: Net, d: Addr, prio: nat): nat
    requires HostsOk(w, f)
  {
    Total(UParts(w, f, d, prio))
  }

  ghost function SSum(w: World, f: Net, d: Addr, prio: nat): nat
    requires HostsOk(w, f)
  {
    Total(SParts(w, f, d, prio))
  }

  lemma UAt(w: World, f: Net, g: Net, m: MsgRef, d: Addr, prio: nat)
    requires HostsOk(w, f) && HostsOk(w, g) && m in w && OthersSame(w, f, g, m)
    ensures USum(w, g, d, prio) == USum(w, f, d, prio)
      + if w[m].dst == d then UPart(ViewOf(w, g, m), m, prio) - UPart(ViewOf(w, f, m), m, prio) else 0
  {
    var a, b := UParts(w, f, d, prio), UParts(w, g, d, prio);
    assert a.Keys == b.Keys;
    forall n | n in w && w[n].dst == d && n != m
      ensures b[n] == a[n]
    {
      assert ViewOf(w, g, n) == ViewOf(w, f, n);
    }
    TotalChange(a, b, m);
  }

  lemma USame(w: World, f: Net, g: Net, d: Addr, prio: nat)
    requires HostsOk(w, f) && HostsOk(w, g)
    requires AllSame(w, f, g)
    ensures USum(w, g, d, prio) == USum(w, f, d, prio)
  {
    var a, b := UParts(w, f, d, prio), UParts(w, g, d, prio);
    assert a.Keys == b.Keys;
    forall n | n in w && w[n].dst == d
      ensures b[n] == a[n]
    {
      assert ViewOf(w, g, n) == ViewOf(w, f, n);
    }
    assert b == a;
  }

  lemma SAt(w: World, f: Net, g: Net, m: MsgRef, d: Addr, prio: nat)
    requires HostsOk(w, f) && HostsOk(w, g) && m in w && OthersSame(w, f, g, m)
    ensures SSum(w, g, d, prio) == SSum(w, f, d, prio)
      + if w[m].dst == d then SPart(ViewOf(w, g, m), m, prio) - SPart(ViewOf(w, f, m), m, prio) else 0
  {
    var a, b := SParts(w, f, d, prio), SParts(w, g, d, prio);
    assert a.Keys == b.Keys;
    forall n | n in w && w[n].dst == d && n != m
      ensures b[n] == a[n]
    {
      assert ViewOf(w, g, n) == ViewOf(w, f, n);
    }
    TotalChange(a, b, m);
  }

  lemma SSame(w: World, f: Net, g: Net, d: Addr, prio: nat)
    requires HostsOk(w, f) && HostsOk(w, g)
    requires AllSame(w, f, g)
    ensures SSum(w, g, d, prio) == SSum(w, f, d, prio)
  {
    var a, b := SParts(w, f, d, prio), SParts(w, g, d, prio);
    assert a.Keys == b.Keys;
    forall n | n in w && w[n].dst == d
      ensures b[n] == a[n]
    {
      assert ViewOf(w, g, n) == ViewOf(w, f, n);
    }
    assert b == a;
  }

  /** The counters of a receiver are exact. */
  ghost predicate CtrOk(cfg: Config, w: World, f: Net, d: Addr, uctr: seq<int>, sctr: seq<int>)
    requires HostsOk(w, f)
  {
    && |uctr| == |sctr| == cfg.allPrio
    && forall prio: nat :: prio < cfg.allPrio ==> uctr[prio] == USum(w, f, d, prio) && sctr[prio] == SSum(w, f, d, prio)
  }

  // ---- what moves do to one message's parts ----

  lemma SameBagParts(v: View, v': View, m: MsgRef, prio: nat)
    requires Bag(v') == Bag(v) && v'.known == v.known
    ensures UPart(v', m, prio) == UPart(v, m, prio) && SPart(v', m, prio) == SPart(v, m, prio)
  {
  }

  lemma AnsweredParts(cfg: Config, m: MsgRef, spec: Spec, v: View, g: Pkt, prio: nat)
    requires cfg.Valid() && ValidSpec(spec) && LiveOk(cfg, m, spec, v) && g in v.flying && g.Grant?
    requires v.out.Some? && v.out.value.toSched >= 0
    ensures UPart(AfterAnswered(v, g), m, prio) == UPart(v, m, prio)
    ensures SPart(AfterAnswered(v, g), m, prio) == SPart(v, m, prio)
  {
    GrantFindsMessage(cfg, m, spec, v, g);
    var p := Answer(v.out.value, g);
    SwapBag(v, g, p);
    SumTake(Bag(v), g);
    SumAdd(Bag(v) - multiset{g}, p);
    SameWeights(g, p);
    var bag' := Bag(v) - multiset{g} + multiset{p};
    assert Sum(Bag(v), UWire(m, prio)) == Weigh(UWire(m, prio), g) + Sum(Bag(v) - multiset{g}, UWire(m, prio));
    assert Sum(bag', UWire(m, prio)) == Sum(Bag(v) - multiset{g}, UWire(m, prio)) + Weigh(UWire(m, prio), p);
    assert Sum(Bag(v), SWire(m, prio)) == Weigh(SWire(m, prio), g) + Sum(Bag(v) - multiset{g}, SWire(m, prio));
    assert Sum(bag', SWire(m, prio)) == Sum(Bag(v) - multiset{g}, SWire(m, prio)) + Weigh(SWire(m, prio), p);
  }

  lemma AcceptParts(cfg: Config, m: MsgRef, spec: Spec, prio: nat)
    requires cfg.Valid() && ValidSpec(spec)
    ensures var plan := multiset(Plan(cfg, m, spec));
            var v := View(false, 0, Some(NewOut(cfg, spec)), None, plan, multiset{}, multiset{});
      && UPart(v, m, prio) == 0 == UPart(TODO, m, prio)
      && SPart(v, m, prio) == 0 == SPart(TODO, m, prio)
  {
    var plan := multiset(Plan(cfg, m, spec));
    PlanAllFit(cfg, m, spec);
    SumNone(plan, SWire(m, prio));
    SumNone(multiset{}, SWire(m, prio));
    assert plan + multiset{} == plan;
  }

  /** A grant counts at its own priority. */
  lemma GrantedParts(v: View, m: MsgRef, g: Pkt, prio: nat)
    requires v.known.Some? && g.Grant? && g.m == m
    ensures var v' := AfterGranted(v, g);
      && UPart(v', m, prio) == UPart(v, m, prio)
      && SPart(v', m, prio) == SPart(v, m, prio) + if prio == g.prio then DataWire(g) else 0
  {
    assert Bag(AfterGranted(v, g)) == Bag(v) + multiset{g};
    GrantWeighs(Bag(v), m, g, prio);
  }

  lemma GrantWeighs(bag: multiset<Pkt>, m: MsgRef, g: Pkt, prio: nat)
    requires g.Grant? && g.m == m
    ensures Sum(bag + multiset{g}, UWire(m, prio)) == Sum(bag, UWire(m, prio))
    ensures Sum(bag + multiset{g}, SWire(m, prio))
         == Sum(bag, SWire(m, prio)) + if prio == g.prio then DataWire(g) else 0
  {
    SumAdd(bag, g);
    assert Sum(bag + multiset{g}, UWire(m, prio)) == Sum(bag, UWire(m, prio)) + Weigh(UWire(m, prio), g);
    assert Sum(bag + multiset{g}, SWire(m, prio)) == Sum(bag, SWire(m, prio)) + Weigh(SWire(m, prio), g);
  }

  /** After a data packet the parts are those of the packets that remain, also when the
      packet completed the message. */
  lemma DataParts(cfg: Config, m: MsgRef, spec: Spec, v: View, p: Pkt, prio: nat)
    requires cfg.Valid() && ValidSpec(spec) && LiveOk(cfg, m, spec, v) && p in v.flying && !p.Grant?
    requires FillAsserts(Seen(cfg, m, spec, v), p) && ViewOk(cfg, m, spec, AfterData(cfg, m, spec, v, p))
    ensures var v' := AfterData(cfg, m, spec, v, p);
      && UPart(v', m, prio) == Sum(Bag(v) - multiset{p}, UWire(m, prio))
      && SPart(v', m, prio) == Sum(Bag(v) - multiset{p}, SWire(m, prio))
  {
    var v' := AfterData(cfg, m, spec, v, p);
    TakeBag(v, p);
    assert Bag(v') == Bag(v) - multiset{p};
    if v'.known.None? {
      assert Bag(v') == multiset{};
      SumNone(multiset{}, UWire(m, prio));
    }
  }

  lemma RestParts(cfg: Config, m: MsgRef, spec: Spec, v: View, p: Pkt, prio: nat)
    requires cfg.Valid() && ValidSpec(spec) && LiveOk(cfg, m, spec, v) && p in v.flying && !p.Grant?
    ensures var rest := Bag(v) - multiset{p};
      && Sum(rest, SWire(m, prio)) == SPart(v, m, prio) - Weigh(SWire(m, prio), p)
      && (v.known.Some? ==> Sum(rest, UWire(m, prio)) == UPart(v, m, prio) - Weigh(UWire(m, prio), p))
      && (v.known.None? ==> p.Unsched? && Sum(rest, UWire(m, prio)) == TableWire(p.hdr.others, prio))
  {
    assert p in Bag(v);
    TakenWeighs(Bag(v), m, p, prio);
    if v.known.None? {
      TableOfFirst(cfg, m, spec, p, prio);
    }
  }

  lemma TakenWeighs(bag: multiset<Pkt>, m: MsgRef, p: Pkt, prio: nat)
    requires p in bag
    ensures Sum(bag, SWire(m, prio)) == Weigh(SWire(m, prio), p) + Sum(bag - multiset{p}, SWire(m, prio))
    ensures Sum(bag, UWire(m, prio)) == Weigh(UWire(m, prio), p) + Sum(bag - multiset{p}, UWire(m, prio))
  {
    SumTake(bag, p);
  }

  // ---- the counters themselves ----

  lemma {:induction false} AddTableAt(ctr: seq<int>, t: seq<PrioBytes>, prio: nat)
    requires prio < |ctr|
    ensures AddTable(ctr, t)[prio] == ctr[prio] + TableWire(t, prio)
    decreases |t|
  {
    if t != [] {
      AddTableAt(Bump(ctr, t[0].prio, BytesOnWire(t[0].bytes, UNSCHED_DATA)), t[1..], prio);
    }
  }

  lemma CountPktAt(rx: Rx, known: bool, p: Pkt, prio: nat)
    requires !p.Grant? && prio < |rx.unschedCtr| == |rx.schedCtr| && (!known ==> p.Unsched?)
    ensures var r := CountPkt(rx, known, p);
      && |r.unschedCtr| == |rx.unschedCtr| && |r.schedCtr| == |rx.schedCtr|
      && r.unschedCtr[prio] == rx.unschedCtr[prio]
           + (if known then -(Weigh(UWire(p.m, prio), p) as int) else TableWire(p.hdr.others, prio))
      && r.schedCtr[prio] == rx.schedCtr[prio] - if known then Weigh(SWire(p.m, prio), p) else 0
  {
    if !known {
      AddTableAt(rx.unschedCtr, p.hdr.others, prio);
    }
  }

  // ---- what moves do to the sums ----

  ghost predicate SumsKept(w: World, f: Net, g: Net, d: Addr, prio: nat)
    requires HostsOk(w, f) && HostsOk(w, g)
  {
    USum(w, g, d, prio) == USum(w, f, d, prio) && SSum(w, g, d, prio) == SSum(w, f, d, prio)
  }

  lemma PartsKept(w: World, f: Net, g: Net, m: MsgRef, d: Addr, prio: nat)
    requires HostsOk(w, f) && HostsOk(w, g) && m in w && OthersSame(w, f, g, m)
    requires UPart(ViewOf(w, g, m), m, prio) == UPart(ViewOf(w, f, m), m, prio)
    requires SPart(ViewOf(w, g, m), m, prio) == SPart(ViewOf(w, f, m), m, prio)
    ensures SumsKept(w, f, g, d, prio)
  {
    UAt(w, f, g, m, d, prio);
    SAt(w, f, g, m, d, prio);
  }

  lemma SendsOthers(w: World, f: Net, p: Pkt)
    requires HostsOk(w, f) && p.m.src in f.tx && p.m.id in f.tx[p.m.src].out
    ensures HostsOk(w, Sends(f, p.m.src, p)) && OthersSame(w, f, Sends(f, p.m.src, p), p.m)
  {
    forall n | n in w && n != p.m
      ensures ViewOf(w, Sends(f, p.m.src, p), n) == ViewOf(w, f, n)
    {
      SendsOther(w, f, p, n);
    }
  }

  lemma SendsSums(cfg: Config, w: World, f: Net, h: Addr, p: Pkt, d: Addr, prio: nat)
    requires NetOk(cfg, w, f) && h in f.tx && p in f.tx[h].queued && p.m.id in f.tx[h].out
    ensures HostsOk(w, Sends(f, h, p)) && SumsKept(w, f, Sends(f, h, p), d, prio)
  {
    QueuedHere(cfg, w, f, h, p);
    SendsOthers(w, f, p);
    ViewOut(w, f, p.m);
    SendsView(w, f, p);
    var v := ViewOf(w, f, p.m);
    MoveBag(v, p);
    SameBagParts(v, AfterTransmit(v, p), p.m, prio);
    PartsKept(w, f, Sends(f, h, p), p.m, d, prio);
  }

  ghost predicate AllSame(w: World, f: Net, g: Net)
    requires HostsOk(w, f) && HostsOk(w, g)
  {
    forall n {:trigger ViewOf(w, g, n)} :: n in w ==> ViewOf(w, g, n) == ViewOf(w, f, n)
  }

  lemma PopsSame(w: World, f: Net, h: Addr, g: Pkt, e: Net)
    requires HostsOk(w, f) && h in f.tx && g in f.tx[h].grantQ && g.m in w && w[g.m].dst == h
    requires e == Pops(f, h, g) && HostsOk(w, e)
    ensures AllSame(w, f, e)
  {
    forall n | n in w
      ensures ViewOf(w, e, n) == ViewOf(w, f, n)
    {
      PopsView(w, f, h, g, n);
    }
  }

  lemma PopsSums(cfg: Config, w: World, f: Net, h: Addr, g: Pkt, d: Addr, prio: nat)
    requires NetOk(cfg, w, f) && h in f.tx && g in f.tx[h].grantQ
    ensures HostsOk(w, Pops(f, h, g)) && SumsKept(w, f, Pops(f, h, g), d, prio)
  {
    assert TxPlaced(w, h, f.tx[h]);
    PopsSame(w, f, h, g, Pops(f, h, g));
    USame(w, f, Pops(f, h, g), d, prio);
    SSame(w, f, Pops(f, h, g), d, prio);
  }

  lemma SetBusySums(cfg: Config, w: World, f: Net, h: Addr, busy: bool, d: Addr, prio: nat)
    requires NetOk(cfg, w, f) && h in f.tx
    ensures HostsOk(w, SetBusy(f, h, busy)) && SumsKept(w, f, SetBusy(f, h, busy), d, prio)
  {
    USame(w, f, SetBusy(f, h, busy), d, prio);
    SSame(w, f, SetBusy(f, h, busy), d, prio);
  }

  lemma AcceptsOthers(cfg: Config, w: World, f: Net, m: MsgRef)
    requires cfg.Valid() && HostsOk(w, f) && m in w
    ensures HostsOk(w, Accepts(cfg, w, f, m)) && OthersSame(w, f, Accepts(cfg, w, f, m), m)
  {
    forall n | n in w && n != m
      ensures ViewOf(w, Accepts(cfg, w, f, m), n) == ViewOf(w, f, n)
    {
      AcceptsOther(cfg, w, f, m, n);
    }
  }

  lemma AcceptsSums(cfg: Config, w: World, f: Net, m: MsgRef, d: Addr, prio: nat)
    requires NetOk(cfg, w, f) && m in f.todo && m in w
    ensures HostsOk(w, Accepts(cfg, w, f, m)) && SumsKept(w, f, Accepts(cfg, w, f, m), d, prio)
  {
    ToCome(cfg, w, f, m);
    AcceptsOthers(cfg, w, f, m);
    AcceptsView(cfg, w, f, m);
    AcceptParts(cfg, m, w[m], prio);
    PartsKept(w, f, Accepts(cfg, w, f, m), m, d, prio);
  }

  lemma AnswersSums(cfg: Config, w: World, f: Net, g: Pkt, d: Addr, prio: nat)
    requires NetOk(cfg, w, f) && g in f.net && g.Grant?
    requires g.m.src in f.tx && g.m.id in f.tx[g.m.src].out && f.tx[g.m.src].out[g.m.id].toSched >= 0
    ensures HostsOk(w, Answers(f, g)) && SumsKept(w, f, Answers(f, g), d, prio)
  {
    FlyingHere(cfg, w, f, g);
    AnswersOthers(w, f, g);
    ViewOut(w, f, g.m);
    AnswersView(w, f, g);
    AnsweredParts(cfg, g.m, w[g.m], ViewOf(w, f, g.m), g, prio);
    PartsKept(w, f, Answers(f, g), g.m, d, prio);
  }

  lemma IssuesOthers(w: World, f: Net, d: Addr, g: Pkt)
    requires HostsOk(w, f) && d in f.tx && g.m in w && w[g.m].dst == d && KnownIn(f.mesgs[d], g.m).Some?
    ensures HostsOk(w, Issues(f, d, g)) && OthersSame(w, f, Issues(f, d, g), g.m)
  {
    forall n | n in w && n != g.m
      ensures ViewOf(w, Issues(f, d, g), n) == ViewOf(w, f, n)
    {
      IssuesOther(w, f, d, g, n);
    }
  }

  lemma IssuesMesg(cfg: Config, w: World, f: Net, e: Addr, g: Pkt, prio: nat)
    requires NetOk(cfg, w, f) && e in f.tx && GrantFits(cfg, e, f.mesgs[e], g)
    ensures g.m in w && w[g.m].dst == e && HostsOk(w, Issues(f, e, g)) && OthersSame(w, f, Issues(f, e, g), g.m)
    ensures var v, v' := ViewOf(w, f, g.m), ViewOf(w, Issues(f, e, g), g.m);
      && UPart(v', g.m, prio) == UPart(v, g.m, prio)
      && SPart(v', g.m, prio) == SPart(v, g.m, prio) + if prio == g.prio then DataWire(g) else 0
  {
    assert RxPlaced(w, e, f.mesgs[e]);
    assert MsgRef(g.m.src, g.m.id) == g.m;
    IssuesOthers(w, f, e, g);
    IssuesView(w, f, g);
    GrantedParts(ViewOf(w, f, g.m), g.m, g, prio);
  }

  lemma IssuesU(cfg: Config, w: World, f: Net, e: Addr, g: Pkt, d: Addr, prio: nat)
    requires NetOk(cfg, w, f) && e in f.tx && GrantFits(cfg, e, f.mesgs[e], g)
    ensures HostsOk(w, Issues(f, e, g))
    ensures USum(w, Issues(f, e, g), d, prio) == USum(w, f, d, prio)
  {
    IssuesMesg(cfg, w, f, e, g, prio);
    UAt(w, f, Issues(f, e, g), g.m, d, prio);
  }

  lemma IssuesS(cfg: Config, w: World, f: Net, e: Addr, g: Pkt, d: Addr, prio: nat)
    requires NetOk(cfg, w, f) && e in f.tx && GrantFits(cfg, e, f.mesgs[e], g)
    ensures HostsOk(w, Issues(f, e, g))
    ensures SSum(w, Issues(f, e, g), d, prio)
         == SSum(w, f, d, prio) + if d == e && prio == g.prio then DataWire(g) else 0
  {
    IssuesMesg(cfg, w, f, e, g, prio);
    SAt(w, f, Issues(f, e, g), g.m, d, prio);
  }

  lemma ReceivesOthers(w: World, f: Net, p: Pkt, j: InMsg)
    requires HostsOk(w, f) && p in f.net && p.m in w && w[p.m].dst == p.dst
    ensures HostsOk(w, Receives(f, p, j)) && OthersSame(w, f, Receives(f, p, j), p.m)
  {
    ReceivesView(w, f, p, j);
    forall n | n in w && n != p.m
      ensures ViewOf(w, Receives(f, p, j), n) == ViewOf(w, f, n)
    {
      ReceivesOther(w, f, p, j, n);
    }
  }

  lemma ReceivesParts(cfg: Config, w: World, f: Net, p: Pkt, prio: nat)
    requires NetOk(cfg, w, f) && p in f.net && !p.Grant?
    ensures p.m in w && w[p.m].dst == p.dst && p.dst in f.mesgs && DataAsserts(f.mesgs[p.dst], p)
    ensures var j, v := Fill(LookupIn(f.mesgs[p.dst], p), p), ViewOf(w, f, p.m);
            var v', known := Taken(v, p, j), KnownIn(f.mesgs[p.dst], p.m).Some?;
      && (known <==> v.known.Some?)
      && SPart(v', p.m, prio) == SPart(v, p.m, prio) - Weigh(SWire(p.m, prio), p)
      && UPart(v', p.m, prio) == UPart(v, p.m, prio)
           + (if known then -(Weigh(UWire(p.m, prio), p) as int) else TableWire(p.hdr.others, prio))
  {
    ReceivesOk(cfg, w, f, p);
    LookupSeen(cfg, w, f, p);
    FlyingHere(cfg, w, f, p);
    var v := ViewOf(w, f, p.m);
    assert v.known == KnownIn(f.mesgs[p.dst], p.m);
    DataView(cfg, p.m, w[p.m], v, p);
    DataParts(cfg, p.m, w[p.m], v, p, prio);
    RestParts(cfg, p.m, w[p.m], v, p, prio);
  }

  lemma ReceivesSums(cfg: Config, w: World, f: Net, p: Pkt, d: Addr, prio: nat)
    requires NetOk(cfg, w, f) && p in f.net && !p.Grant?
    ensures p.m in w && w[p.m].dst == p.dst && p.dst in f.mesgs && DataAsserts(f.mesgs[p.dst], p)
    ensures var g := Receives(f, p, Fill(LookupIn(f.mesgs[p.dst], p), p));
            var known := KnownIn(f.mesgs[p.dst], p.m).Some?;
      && HostsOk(w, g)
      && (d != p.dst ==> SumsKept(w, f, g, d, prio))
      && (d == p.dst ==>
            SSum(w, g, d, prio) == SSum(w, f, d, prio) - Weigh(SWire(p.m, prio), p)
            && USum(w, g, d, prio) == USum(w, f, d, prio)
                 + if known then -(Weigh(UWire(p.m, prio), p) as int) else TableWire(p.hdr.others, prio))
  {
    ReceivesParts(cfg, w, f, p, prio);
    var j := Fill(LookupIn(f.mesgs[p.dst], p), p);
    ReceivesOthers(w, f, p, j);
    ReceivesView(w, f, p, j);
    UAt(w, f, Receives(f, p, j), p.m, d, prio);
    SAt(w, f, Receives(f, p, j), p.m, d, prio);
  }

  // ---- every step keeps the counters exact ----

  ghost predicate CtrAt(cfg: Config, w: World, f: Net, d: Addr, rx: Rx)
    requires HostsOk(w, f)
  {
    CtrOk(cfg, w, f, d, rx.unschedCtr, rx.schedCtr)
  }

  ghost predicate CtrsOk(cfg: Config, w: World, st: State) {
    && HostsOk(w, FlowOf(st))
    && forall d {:trigger CtrAt(cfg, w, FlowOf(st), d, st.rx[d])} ::
         d in st.rx ==> CtrAt(cfg, w, FlowOf(st), d, st.rx[d])
  }

  lemma CtrMoved(cfg: Config, w: World, f: Net, g: Net, d: Addr, rx: Rx)
    requires HostsOk(w, f) && HostsOk(w, g) && CtrAt(cfg, w, f, d, rx)
    requires forall prio: nat :: SumsKept(w, f, g, d, prio)
    ensures CtrAt(cfg, w, g, d, rx)
  {
    forall prio: nat | prio < cfg.allPrio
      ensures rx.unschedCtr[prio] == USum(w, g, d, prio) && rx.schedCtr[prio] == SSum(w, g, d, prio)
    {
      assert SumsKept(w, f, g, d, prio);
    }
  }

  lemma CtrsMoved(cfg: Config, w: World, st: State, st': State)
    requires CtrsOk(cfg, w, st) && st'.rx == st.rx && HostsOk(w, FlowOf(st'))
    requires forall d: Addr, prio: nat :: SumsKept(w, FlowOf(st), FlowOf(st'), d, prio)
    ensures CtrsOk(cfg, w, st')
  {
    forall d | d in st'.rx
      ensures CtrAt(cfg, w, FlowOf(st'), d, st'.rx[d])
    {
      assert CtrAt(cfg, w, FlowOf(st), d, st.rx[d]);
      CtrMoved(cfg, w, FlowOf(st), FlowOf(st'), d, st.rx[d]);
    }
  }

  lemma TransmitCtrs(cfg: Config, w: World, st: State, h: Addr, p: Pkt)
    requires NetOk(cfg, w, FlowOf(st)) && CtrsOk(cfg, w, st) && h in st.tx && TransmitAsserts(st.tx[h], p)
    ensures CtrsOk(cfg, w, WithTx(st, h, Transmit(st.tx[h], p)).(net := st.net + multiset{p}))
  {
    var f, st' := FlowOf(st), WithTx(st, h, Transmit(st.tx[h], p)).(net := st.net + multiset{p});
    assert FlowOf(st') == Sends(f, h, p);
    SendsOk(cfg, w, f, h, p);
    forall d: Addr, prio: nat
      ensures SumsKept(w, f, Sends(f, h, p), d, prio)
    {
      SendsSums(cfg, w, f, h, p, d, prio);
    }
    CtrsMoved(cfg, w, st, st');
  }

  lemma AcceptedCtrs(cfg: Config, w: World, st: State, m: MsgRef)
    requires NetOk(cfg, w, FlowOf(st)) && CtrsOk(cfg, w, st)
    requires m in st.todo && m in w && ValidSpec(w[m]) && m.src in st.tx
    ensures CtrsOk(cfg, w, Accepted(cfg, w, st, m))
  {
    var f := FlowOf(st);
    assert FlowOf(Accepted(cfg, w, st, m)) == Accepts(cfg, w, f, m);
    AcceptsOk(cfg, w, f, m);
    forall d: Addr, prio: nat
      ensures SumsKept(w, f, Accepts(cfg, w, f, m), d, prio)
    {
      AcceptsSums(cfg, w, f, m, d, prio);
    }
    CtrsMoved(cfg, w, st, Accepted(cfg, w, st, m));
  }

  lemma AnsweredCtrs(cfg: Config, w: World, st: State, g: Pkt)
    requires NetOk(cfg, w, FlowOf(st)) && CtrsOk(cfg, w, st) && g in st.net && GrantAsserts(st, g)
    ensures CtrsOk(cfg, w, Answered(st, g))
  {
    var f := FlowOf(st);
    assert FlowOf(Answered(st, g)) == Answers(f, g);
    AnswersOk(cfg, w, f, g);
    forall d: Addr, prio: nat
      ensures SumsKept(w, f, Answers(f, g), d, prio)
    {
      AnswersSums(cfg, w, f, g, d, prio);
    }
    CtrsMoved(cfg, w, st, Answered(st, g));
  }

  lemma PoppedCtrs(cfg: Config, w: World, st: State, h: Addr, g: Pkt)
    requires NetOk(cfg, w, FlowOf(st)) && CtrsOk(cfg, w, st) && h in st.tx && g in st.tx[h].grantQ && st.tx[h].busy
    ensures CtrsOk(cfg, w,
                   WithTx(st, h, st.tx[h].(grantQ := st.tx[h].grantQ - multiset{g})).(net := st.net + multiset{g}))
  {
    var f := FlowOf(st);
    var st' := WithTx(st, h, st.tx[h].(grantQ := st.tx[h].grantQ - multiset{g})).(net := st.net + multiset{g});
    assert FlowOf(st') == Pops(f, h, g);
    PopsOk(cfg, w, f, h, g);
    forall d: Addr, prio: nat
      ensures SumsKept(w, f, Pops(f, h, g), d, prio)
    {
      PopsSums(cfg, w, f, h, g, d, prio);
    }
    CtrsMoved(cfg, w, st, st');
  }

  lemma IdleCtrs(cfg: Config, w: World, st: State, h: Addr)
    requires NetOk(cfg, w, FlowOf(st)) && CtrsOk(cfg, w, st) && h in st.tx
    ensures CtrsOk(cfg, w, WithTx(st, h, st.tx[h].(busy := false)))
  {
    var f, st' := FlowOf(st), WithTx(st, h, st.tx[h].(busy := false));
    assert FlowOf(st') == SetBusy(f, h, false);
    SetBusyOk(cfg, w, f, h, false);
    forall d: Addr, prio: nat
      ensures SumsKept(w, f, SetBusy(f, h, false), d, prio)
    {
      SetBusySums(cfg, w, f, h, false, d, prio);
    }
    CtrsMoved(cfg, w, st, st');
  }

  lemma KickCtrs(cfg: Config, w: World, st: State, h: Addr, next: Pkt)
    requires NetOk(cfg, w, FlowOf(st)) && CtrsOk(cfg, w, st) && KickAsserts(st, h, next)
    ensures CtrsOk(cfg, w, Kick(st, h, next))
  {
    if !st.tx[h].busy {
      TransmitCtrs(cfg, w, st, h, next);
    }
  }

  // ---- grants ----

  function GrantWire(gs: seq<Pkt>, prio: nat): nat
    decreases |gs|
  {
    if gs == [] then 0 else (if gs[0].prio == prio then DataWire(gs[0]) else 0) + GrantWire(gs[1..], prio)
  }

  lemma {:induction false} CountGrantsAt(ctr: seq<int>, gs: seq<Pkt>, prio: nat)
    requires prio < |ctr|
    ensures |CountGrants(ctr, gs)| == |ctr| && CountGrants(ctr, gs)[prio] == ctr[prio] + GrantWire(gs, prio)
    decreases |gs|
  {
    if gs != [] {
      CountGrantsAt(Bump(ctr, gs[0].prio, DataWire(gs[0])), gs[1..], prio);
    }
  }

  lemma {:induction false} IssueAllSums(cfg: Config, w: World, f: Net, e: Addr, gs: seq<Pkt>, d: Addr, prio: nat)
    requires NetOk(cfg, w, f) && e in f.tx && e in f.mesgs && GrantsFit(cfg, e, f.mesgs[e], gs)
    ensures HostsOk(w, IssueAll(f, e, gs))
    ensures USum(w, IssueAll(f, e, gs), d, prio) == USum(w, f, d, prio)
    ensures SSum(w, IssueAll(f, e, gs), d, prio) == SSum(w, f, d, prio) + if d == e then GrantWire(gs, prio) else 0
    decreases |gs|
  {
    if gs != [] {
      IssuesOk(cfg, w, f, e, gs[0]);
      IssuesU(cfg, w, f, e, gs[0], d, prio);
      IssuesS(cfg, w, f, e, gs[0], d, prio);
      IssueAllSums(cfg, w, Issues(f, e, gs[0]), e, gs[1..], d, prio);
    }
  }

  /** Counters after the grants of an event at receiver `e`. */
  lemma GrantedCtr(cfg: Config, w: World, f: Net, e: Addr, gs: seq<Pkt>, rx: Rx, rx': Rx)
    requires NetOk(cfg, w, f) && e in f.tx && e in f.mesgs && GrantsFit(cfg, e, f.mesgs[e], gs)
    requires CtrAt(cfg, w, f, e, rx)
    requires rx'.unschedCtr == rx.unschedCtr && rx'.schedCtr == CountGrants(rx.schedCtr, gs)
    ensures HostsOk(w, IssueAll(f, e, gs)) && CtrAt(cfg, w, IssueAll(f, e, gs), e, rx')
  {
    IssueAllOk(cfg, w, f, e, gs);
    forall prio: nat | prio < cfg.allPrio
      ensures |rx'.schedCtr| == cfg.allPrio
      ensures rx'.unschedCtr[prio] == USum(w, IssueAll(f, e, gs), e, prio)
      ensures rx'.schedCtr[prio] == SSum(w, IssueAll(f, e, gs), e, prio)
    {
      IssueAllSums(cfg, w, f, e, gs, e, prio);
      CountGrantsAt(rx.schedCtr, gs, prio);
    }
    CountGrantsAt(rx.schedCtr, gs, 0);
  }

  lemma GrantedOthersCtr(cfg: Config, w: World, f: Net, e: Addr, gs: seq<Pkt>, d: Addr, rx: Rx)
    requires NetOk(cfg, w, f) && e in f.tx && e in f.mesgs && GrantsFit(cfg, e, f.mesgs[e], gs)
    requires d != e && CtrAt(cfg, w, f, d, rx)
    ensures HostsOk(w, IssueAll(f, e, gs)) && CtrAt(cfg, w, IssueAll(f, e, gs), d, rx)
  {
    IssueAllOk(cfg, w, f, e, gs);
    forall prio: nat
      ensures SumsKept(w, f, IssueAll(f, e, gs), d, prio)
    {
      IssueAllSums(cfg, w, f, e, gs, d, prio);
    }
    CtrMoved(cfg, w, f, IssueAll(f, e, gs), d, rx);
  }

  // ---- arrivals and grant timers ----

  lemma ArrivalCounts(cfg: Config, own: map<Ident, Addr>, rx: Rx, p: Pkt)
    requires cfg.Valid() && RxOk(cfg, own, rx, {}) && Welcome(cfg, own, rx, p)
    ensures var a, c := Arrival(cfg, own, rx, p), CountPkt(rx, KnownIn(MesgsOf(rx), p.m).Some?, p);
      a.rx.unschedCtr == c.unschedCtr && a.rx.schedCtr == CountGrants(c.schedCtr, a.grants)
  {
    AfterPktOk(cfg, own, rx, p);
    ReactEffect(cfg, own, AfterPkt(cfg, rx, p), p.m.src);
    LookupIs(cfg, rx, p);
    RemoveFrame(cfg, WithSender(cfg, rx, p.m.src), p.m.src);
  }

  lemma ReceivesCtrAt(cfg: Config, w: World, f: Net, p: Pkt, rx: Rx, prio: nat)
    requires NetOk(cfg, w, f) && p in f.net && !p.Grant? && p.dst in f.mesgs && CtrAt(cfg, w, f, p.dst, rx)
    requires DataAsserts(f.mesgs[p.dst], p) && prio < cfg.allPrio
    ensures var g := Receives(f, p, Fill(LookupIn(f.mesgs[p.dst], p), p));
            var c := CountPkt(rx, KnownIn(f.mesgs[p.dst], p.m).Some?, p);
      && HostsOk(w, g) && |c.unschedCtr| == |c.schedCtr| == cfg.allPrio
      && c.unschedCtr[prio] == USum(w, g, p.dst, prio) && c.schedCtr[prio] == SSum(w, g, p.dst, prio)
  {
    var g := Receives(f, p, Fill(LookupIn(f.mesgs[p.dst], p), p));
    ReceivesSums(cfg, w, f, p, p.dst, prio);
    CountedAt(rx, KnownIn(f.mesgs[p.dst], p.m).Some?, p, prio, USum(w, f, p.dst, prio), USum(w, g, p.dst, prio),
              SSum(w, f, p.dst, prio), SSum(w, g, p.dst, prio));
  }

  lemma CountedAt(rx: Rx, known: bool, p: Pkt, prio: nat, u: int, u': int, s: int, s': int)
    requires !p.Grant? && prio < |rx.unschedCtr| == |rx.schedCtr| && (known || p.Unsched?)
    requires rx.unschedCtr[prio] == u && rx.schedCtr[prio] == s
    requires u' == u + if known then -(Weigh(UWire(p.m, prio), p) as int) else TableWire(p.hdr.others, prio)
    requires s' == s - Weigh(SWire(p.m, prio), p)
    ensures var c := CountPkt(rx, known, p);
      && |c.unschedCtr| == |rx.unschedCtr| && |c.schedCtr| == |rx.schedCtr|
      && c.unschedCtr[prio] == u' && c.schedCtr[prio] == s'
  {
    CountPktAt(rx, known, p, prio);
    if !known { NotSched(p, prio); }
  }

  lemma ReceivesCtr(cfg: Config, w: World, f: Net, p: Pkt, rx: Rx)
    requires NetOk(cfg, w, f) && p in f.net && !p.Grant? && p.dst in f.mesgs && CtrAt(cfg, w, f, p.dst, rx)
    requires DataAsserts(f.mesgs[p.dst], p)
    ensures var g := Receives(f, p, Fill(LookupIn(f.mesgs[p.dst], p), p));
      HostsOk(w, g) && CtrAt(cfg, w, g, p.dst, CountPkt(rx, KnownIn(f.mesgs[p.dst], p.m).Some?, p))
  {
    var c := CountPkt(rx, KnownIn(f.mesgs[p.dst], p.m).Some?, p);
    var g := Receives(f, p, Fill(LookupIn(f.mesgs[p.dst], p), p));
    forall prio: nat | prio < cfg.allPrio
      ensures HostsOk(w, g) && |c.unschedCtr| == |c.schedCtr| == cfg.allPrio
      ensures c.unschedCtr[prio] == USum(w, g, p.dst, prio) && c.schedCtr[prio] == SSum(w, g, p.dst, prio)
    {
      ReceivesCtrAt(cfg, w, f, p, rx, prio);
    }
    ReceivesCtrAt(cfg, w, f, p, rx, 0);
  }

  lemma NotSched(p: Pkt, prio: nat)
    requires p.Unsched?
    ensures Weigh(SWire(p.m, prio), p) == 0
  {
  }

  lemma ReceivesOthersCtr(cfg: Config, w: World, f: Net, p: Pkt, d: Addr, rx: Rx)
    requires NetOk(cfg, w, f) && p in f.net && !p.Grant? && d != p.dst && CtrAt(cfg, w, f, d, rx)
    ensures p.dst in f.mesgs && DataAsserts(f.mesgs[p.dst], p)
    ensures var g := Receives(f, p, Fill(LookupIn(f.mesgs[p.dst], p), p)); HostsOk(w, g) && CtrAt(cfg, w, g, d, rx)
  {
    ReceivesOk(cfg, w, f, p);
    var g := Receives(f, p, Fill(LookupIn(f.mesgs[p.dst], p), p));
    forall prio: nat
      ensures SumsKept(w, f, g, d, prio)
    {
      ReceivesSums(cfg, w, f, p, d, prio);
    }
    CtrMoved(cfg, w, f, g, d, rx);
  }

  /** An event at receiver `d`: the flow goes from `f` by grants, the other receivers stay. */
  lemma ReceiverCtrs(cfg: Config, w: World, st: State, f: Net, d: Addr, rx: Rx, gs: seq<Pkt>, c: Rx)
    requires NetOk(cfg, w, f) && d in f.tx && d in f.mesgs && d in st.rx && GrantsFit(cfg, d, f.mesgs[d], gs)
    requires f == FlowOf(st).(mesgs := f.mesgs) && f.mesgs.Keys == st.rx.Keys
    requires forall e :: e in st.rx && e != d ==> f.mesgs[e] == MesgsOf(st.rx[e]) && CtrAt(cfg, w, f, e, st.rx[e])
    requires MesgsOf(rx) == ApplyGrants(f.mesgs[d], gs) && CtrAt(cfg, w, f, d, c)
    requires rx.unschedCtr == c.unschedCtr && rx.schedCtr == CountGrants(c.schedCtr, gs)
    ensures CtrsOk(cfg, w, EmitAll(st.(rx := st.rx[d := rx]), d, gs))
  {
    var st' := EmitAll(st.(rx := st.rx[d := rx]), d, gs);
    IssueAllIs(f, d, gs);
    FlowMesgs(st, f, d, rx, gs);
    GrantedCtr(cfg, w, f, d, gs, c, rx);
    forall e | e in st'.rx
      ensures CtrAt(cfg, w, FlowOf(st'), e, st'.rx[e])
    {
      if e != d {
        GrantedOthersCtr(cfg, w, f, d, gs, e, st.rx[e]);
      }
    }
  }

  lemma DataCtrs(cfg: Config, w: World, st: State, p: Pkt)
    requires NetOk(cfg, w, FlowOf(st)) && CtrsOk(cfg, w, st) && p in st.net && !p.Grant?
    requires ArrivalAsserts(cfg, w, st, p) && st.rx[p.dst].addr == p.dst
    ensures CtrsOk(cfg, w, EmitAll(TakenIn(cfg, w, st, p), p.dst, ArrivedAt(cfg, w, st, p).grants))
  {
    var f, a, rx := FlowOf(st), ArrivedAt(cfg, w, st, p), st.rx[p.dst];
    DataWelcome(cfg, w, st, p);
    ArrivalMesgs(cfg, Own(w, p.dst), rx, p);
    ArrivalCounts(cfg, Own(w, p.dst), rx, p);
    var j := Fill(LookupIn(MesgsOf(rx), p), p);
    DataCtrsFrom(cfg, w, st, p, a, j);
    assert TakenIn(cfg, w, st, p) == Logged(st, p, a.complete).(rx := st.rx[p.dst := a.rx]);
  }

  lemma OtherReceivers(cfg: Config, w: World, st: State, p: Pkt, j: InMsg)
    requires NetOk(cfg, w, FlowOf(st)) && CtrsOk(cfg, w, st) && p in st.net && !p.Grant? && p.dst in st.rx
    requires DataAsserts(MesgsOf(st.rx[p.dst]), p) && j == Fill(LookupIn(MesgsOf(st.rx[p.dst]), p), p)
    ensures var r := Receives(FlowOf(st), p, j);
      && NetOk(cfg, w, r)
      && forall e :: e in st.rx && e != p.dst ==> r.mesgs[e] == MesgsOf(st.rx[e]) && CtrAt(cfg, w, r, e, st.rx[e])
  {
    var f := FlowOf(st);
    assert f.mesgs[p.dst] == MesgsOf(st.rx[p.dst]);
    ReceivesOk(cfg, w, f, p);
    forall e | e in st.rx && e != p.dst
      ensures CtrAt(cfg, w, Receives(f, p, j), e, st.rx[e])
    {
      CtrHere(cfg, w, st, e);
      ReceivesOthersCtr(cfg, w, f, p, e, st.rx[e]);
    }
  }

  lemma CtrHere(cfg: Config, w: World, st: State, e: Addr)
    requires CtrsOk(cfg, w, st) && e in st.rx
    ensures CtrAt(cfg, w, FlowOf(st), e, st.rx[e])
  {
  }

  lemma DataCtrsFrom(cfg: Config, w: World, st: State, p: Pkt, a: Arrived, j: InMsg)
    requires NetOk(cfg, w, FlowOf(st)) && CtrsOk(cfg, w, st)
    requires p in st.net && !p.Grant? && p.dst in st.rx && p.dst in st.tx
    requires DataAsserts(MesgsOf(st.rx[p.dst]), p) && j == Fill(LookupIn(MesgsOf(st.rx[p.dst]), p), p)
    requires a.complete == (j.toReceive == 0)
    requires var r := Receives(FlowOf(st), p, j);
      GrantsFit(cfg, p.dst, r.mesgs[p.dst], a.grants) && MesgsOf(a.rx) == ApplyGrants(r.mesgs[p.dst], a.grants)
    requires var c := CountPkt(st.rx[p.dst], KnownIn(MesgsOf(st.rx[p.dst]), p.m).Some?, p);
      a.rx.unschedCtr == c.unschedCtr && a.rx.schedCtr == CountGrants(c.schedCtr, a.grants)
    ensures CtrsOk(cfg, w, EmitAll(Logged(st, p, a.complete).(rx := st.rx[p.dst := a.rx]), p.dst, a.grants))
  {
    OtherReceivers(cfg, w, st, p, j);
    OwnReceiver(cfg, w, st, p, j);
    LoggedFlow(st, p, j, a.complete);
    var c := CountPkt(st.rx[p.dst], KnownIn(MesgsOf(st.rx[p.dst]), p.m).Some?, p);
    ReceiverCtrs(cfg, w, Logged(st, p, a.complete), Receives(FlowOf(st), p, j), p.dst, a.rx, a.grants, c);
  }

  lemma OwnReceiver(cfg: Config, w: World, st: State, p: Pkt, j: InMsg)
    requires NetOk(cfg, w, FlowOf(st)) && CtrsOk(cfg, w, st) && p in st.net && !p.Grant? && p.dst in st.rx
    requires DataAsserts(MesgsOf(st.rx[p.dst]), p) && j == Fill(LookupIn(MesgsOf(st.rx[p.dst]), p), p)
    ensures var r, rx := Receives(FlowOf(st), p, j), st.rx[p.dst];
      HostsOk(w, r) && CtrAt(cfg, w, r, p.dst, CountPkt(rx, KnownIn(MesgsOf(rx), p.m).Some?, p))
  {
    var f, rx := FlowOf(st), st.rx[p.dst];
    assert f.mesgs[p.dst] == MesgsOf(rx);
    assert CtrAt(cfg, w, f, p.dst, rx);
    ReceivesCtr(cfg, w, f, p, rx);
  }

  lemma TimerCounts(cfg: Config, own: map<Ident, Addr>, rx: Rx, s: Addr)
    requires cfg.Valid() && RxOk(cfg, own, rx, {}) && s in rx.sx
    ensures var g := TimerFires(cfg, own, rx, s);
      && GrantsFit(cfg, rx.addr, MesgsOf(rx), g.grants) && MesgsOf(g.rx) == ApplyGrants(MesgsOf(rx), g.grants)
      && g.rx.unschedCtr == rx.unschedCtr && g.rx.schedCtr == CountGrants(rx.schedCtr, g.grants)
  {
    TimerRemoveOk(cfg, own, rx, s);
    TimerSame(cfg, rx, s);
    ReactEffect(cfg, own, Remove(cfg, TimerOff(rx, s), s), s);
  }

  lemma TimerCtrs(cfg: Config, w: World, st: State, d: Addr, s: Addr)
    requires NetOk(cfg, w, FlowOf(st)) && CtrsOk(cfg, w, st) && TimerAsserts(cfg, w, st, d, s) && st.rx[d].addr == d
    ensures var g := FiredAt(cfg, w, st, d, s); CtrsOk(cfg, w, EmitAll(st.(rx := st.rx[d := g.rx]), d, g.grants))
  {
    var f, g := FlowOf(st), FiredAt(cfg, w, st, d, s);
    TimerCounts(cfg, Own(w, d), st.rx[d], s);
    assert f.mesgs[d] == MesgsOf(st.rx[d]);
    forall e | e in st.rx
      ensures CtrAt(cfg, w, f, e, st.rx[e])
    {
    }
    ReceiverCtrs(cfg, w, st, f, d, g.rx, g.grants, st.rx[d]);
  }

  /** Every step keeps every counter exact. */
  lemma StepCtrs(cfg: Config, w: World, st: State, e: Event)
    requires Inv(cfg, w, st) && CtrsOk(cfg, w, st) && Enabled(cfg, w, st, e) && Asserts(cfg, w, st, e)
    ensures CtrsOk(cfg, w, Next(cfg, w, st, e))
  {
    match e
    case AppSend(m, next) =>
      AcceptedOk(cfg, w, st, m);
      AcceptedCtrs(cfg, w, st, m);
      KickCtrs(cfg, w, Accepted(cfg, w, st, m), m.src, next);
    case SendTimer(h, next) =>
      if st.tx[h].grantQ != multiset{} {
        PoppedCtrs(cfg, w, st, h, next);
      } else if st.tx[h].queued != multiset{} {
        TransmitCtrs(cfg, w, st, h, next);
      } else {
        IdleCtrs(cfg, w, st, h);
      }
    case Arrive(p, next) =>
      if p.Grant? {
        AnsweredOk(cfg, w, st, p);
        AnsweredCtrs(cfg, w, st, p);
        KickCtrs(cfg, w, Answered(st, p), p.m.src, next);
      } else {
        SchedulerAt(cfg, w, st, p.dst);
        DataCtrs(cfg, w, st, p);
      }
    case GrantTimer(d, s) =>
      SchedulerAt(cfg, w, st, d);
      TimerCtrs(cfg, w, st, d, s);
  }
}

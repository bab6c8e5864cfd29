/** The results about whole runs: safety of every reachable state, exactly-once delivery,
    exact accounting, the bound on outstanding bytes, and that every run ends and every
    maximal run delivers every message. */
module Runs {
  import opened Sums
  import opened Wire
  import opened Priority
  import opened HomaTypes
  import opened Inbound
  import opened SenderState
  import opened Receiver
  import opened ReceiverEvents
  import opened ReceiverEffects
  import opened Sender
  import opened Message
  import opened Flow
  import opened Protocol
  import opened Safety
  import opened Progress
  import opened Accounting
  import opened InFlight
  import opened Ranking
  import opened Granting

  /** A workload: finitely many messages between hosts, of a size the protocol can carry. */
  ghost predicate Workload(w: World, hosts: set<Addr>) {
    && DistinctKeys(w)
    && forall m :: m in w ==> m.src in hosts && w[m].dst in hosts && ValidSpec(w[m])
  }

  ghost function Init(cfg: Config, w: World, hosts: set<Addr>): State {
    State(w.Keys, map h | h in hosts :: NEW_TX, map h | h in hosts :: NewRx(cfg, h), multiset{}, multiset{}, multiset{})
  }

  lemma NewRxOk(cfg: Config, own: map<Ident, Addr>, h: Addr)
    requires cfg.Valid()
    ensures RxOk(cfg, own, NewRx(cfg, h), {}) && ServedFirst(cfg, NewRx(cfg, h), cfg.numToGrant)
    ensures MesgsOf(NewRx(cfg, h)) == map[]
  {
    assert KeysOf(map[], []) == [];
  }

  lemma InitViews(cfg: Config, w: World, hosts: set<Addr>, m: MsgRef)
    requires cfg.Valid() && Workload(w, hosts) && m in w
    ensures HostsOk(w, FlowOf(Init(cfg, w, hosts))) && ViewOf(w, FlowOf(Init(cfg, w, hosts)), m) == TODO
  {
    NewRxOk(cfg, map[], w[m].dst);
    var v := ViewOf(w, FlowOf(Init(cfg, w, hosts)), m);
    assert v.queued == multiset{} && v.flying == multiset{} && v.rcvd == multiset{};
  }

  lemma InitPlaced(cfg: Config, w: World, hosts: set<Addr>)
    requires cfg.Valid() && Workload(w, hosts)
    ensures Placed(w, FlowOf(Init(cfg, w, hosts)))
  {
    var f := FlowOf(Init(cfg, w, hosts));
    forall d | d in f.mesgs
      ensures RxPlaced(w, d, f.mesgs[d])
    {
      NewRxOk(cfg, map[], d);
    }
  }

  lemma InitNet(cfg: Config, w: World, hosts: set<Addr>)
    requires cfg.Valid() && Workload(w, hosts)
    ensures NetOk(cfg, w, FlowOf(Init(cfg, w, hosts)))
    ensures forall m :: m in w ==> ViewOf(w, FlowOf(Init(cfg, w, hosts)), m) == TODO
  {
    var f := FlowOf(Init(cfg, w, hosts));
    assert f.tx.Keys == hosts == f.mesgs.Keys;
    forall m | m in w
      ensures ViewOf(w, f, m) == TODO
    {
      InitViews(cfg, w, hosts, m);
    }
    InitPlaced(cfg, w, hosts);
  }

  /** The initial state satisfies the invariant and its counters are exact. */
  lemma InitOk(cfg: Config, w: World, hosts: set<Addr>)
    requires cfg.Valid() && Workload(w, hosts)
    ensures Inv(cfg, w, Init(cfg, w, hosts)) && CtrsOk(cfg, w, Init(cfg, w, hosts))
  {
    var st := Init(cfg, w, hosts);
    InitNet(cfg, w, hosts);
    InitReceivers(cfg, w, st, FlowOf(st));
    InitInv(cfg, w, st);
  }

  lemma InitInv(cfg: Config, w: World, st: State)
    requires DistinctKeys(w) && NetOk(cfg, w, FlowOf(st))
    requires forall d :: d in st.rx ==> SchedulerOk(cfg, w, d, st.rx[d]) && CtrAt(cfg, w, FlowOf(st), d, st.rx[d])
    requires forall h :: h in st.tx ==> st.tx[h] == NEW_TX
    ensures Inv(cfg, w, st) && CtrsOk(cfg, w, st)
  {
  }

  lemma InitReceivers(cfg: Config, w: World, st: State, f: Net)
    requires cfg.Valid() && DistinctKeys(w) && HostsOk(w, f) && forall m :: m in w ==> ViewOf(w, f, m) == TODO
    requires forall d :: d in st.rx ==> st.rx[d] == NewRx(cfg, d)
    ensures forall d :: d in st.rx ==> SchedulerOk(cfg, w, d, st.rx[d]) && CtrAt(cfg, w, f, d, st.rx[d])
  {
    forall d | d in st.rx
      ensures SchedulerOk(cfg, w, d, st.rx[d]) && CtrAt(cfg, w, f, d, st.rx[d])
    {
      NewRxOk(cfg, Own(w, d), d);
      InitCtr(cfg, w, f, d);
    }
  }

  lemma InitCtr(cfg: Config, w: World, f: Net, d: Addr)
    requires HostsOk(w, f) && forall m :: m in w ==> ViewOf(w, f, m) == TODO
    ensures CtrAt(cfg, w, f, d, NewRx(cfg, d))
  {
    forall prio: nat | prio < cfg.allPrio
      ensures USum(w, f, d, prio) == 0 == SSum(w, f, d, prio)
    {
      forall m
        ensures Sum(multiset{}, SWire(m, prio)) == 0
      {
        SumNone(multiset{}, SWire(m, prio));
      }
      TotalZero(UParts(w, f, d, prio));
      TotalZero(SParts(w, f, d, prio));
    }
  }

  lemma {:induction false} TotalZero<K>(f: map<K, nat>)
    requires forall k :: k in f ==> f[k] == 0
    ensures Total(f) == 0
    decreases |f|
  {
    if f != map[] {
      var k :| k in f;
      TotalAt(f, k);
      TotalZero(f - {k});
    }
  }

  // ---- runs ----

  /** A step: something enabled happens, and does what the transport does as long as no
      assertion fails. */
  ghost predicate Step(cfg: Config, w: World, st: State, e: Event, st': State) {
    Enabled(cfg, w, st, e) && (Asserts(cfg, w, st, e) ==> st' == Next(cfg, w, st, e))
  }

  ghost predicate Run(cfg: Config, w: World, hosts: set<Addr>, sts: seq<State>, es: seq<Event>) {
    && |sts| == |es| + 1
    && sts[0] == Init(cfg, w, hosts)
    && forall i :: 0 <= i < |es| ==> Step(cfg, w, sts[i], es[i], sts[i + 1])
  }

  /** In every run, every state satisfies the invariant and has exact counters. */
  lemma {:induction false} RunSafe(cfg: Config, w: World, hosts: set<Addr>, sts: seq<State>, es: seq<Event>, i: nat)
    requires cfg.Valid() && Workload(w, hosts) && Run(cfg, w, hosts, sts, es) && i < |sts|
    ensures Inv(cfg, w, sts[i]) && CtrsOk(cfg, w, sts[i])
  {
    if i == 0 {
      InitOk(cfg, w, hosts);
    } else {
      RunSafe(cfg, w, hosts, sts, es, i - 1);
      assert Step(cfg, w, sts[i - 1], es[i - 1], sts[i]);
      StepOk(cfg, w, sts[i - 1], es[i - 1]);
      StepCtrs(cfg, w, sts[i - 1], es[i - 1]);
    }
  }

  /** No assertion of the transport fails in any run. */
  lemma NoAssertionFails(cfg: Config, w: World, hosts: set<Addr>, sts: seq<State>, es: seq<Event>, i: nat)
    requires cfg.Valid() && Workload(w, hosts) && Run(cfg, w, hosts, sts, es) && i < |es|
    ensures Asserts(cfg, w, sts[i], es[i]) && sts[i + 1] == Next(cfg, w, sts[i], es[i])
  {
    RunSafe(cfg, w, hosts, sts, es, i);
    assert Step(cfg, w, sts[i], es[i], sts[i + 1]);
    StepOk(cfg, w, sts[i], es[i]);
  }

  /** In every state of every run the senders a receiver grants are its best ones. */
  lemma BestServed(cfg: Config, w: World, hosts: set<Addr>, sts: seq<State>, es: seq<Event>, i: nat, d: Addr)
    requires cfg.Valid() && Workload(w, hosts) && Run(cfg, w, hosts, sts, es) && i < |sts| && d in sts[i].rx
    ensures BestFirst(cfg, sts[i].rx[d]) && ServedFirst(cfg, sts[i].rx[d], cfg.numToGrant)
  {
    RunSafe(cfg, w, hosts, sts, es, i);
    assert SchedulerOk(cfg, w, d, sts[i].rx[d]);
    BestAreFirst(cfg, Own(w, d), sts[i].rx[d]);
  }

  /** The host whose scheduler an event is for, and the grants it sends. */
  ghost function GrantsOf(cfg: Config, w: World, st: State, e: Event): (Addr, seq<Pkt>)
    requires Asserts(cfg, w, st, e)
  {
    match e
    case Arrive(p, _) => (p.dst, if p.Grant? then [] else ArrivedAt(cfg, w, st, p).grants)
    case GrantTimer(d, s) => (d, FiredAt(cfg, w, st, d, s).grants)
    case AppSend(m, _) => (m.src, [])
    case SendTimer(h, _) => (h, [])
  }

  /** Some turn of a sender asks for exactly this grant. */
  ghost predicate Asked(cfg: Config, own: map<Ident, Addr>, g: Pkt) {
    exists t {:trigger ItsTurn(cfg, own, t)} :: ItsTurn(cfg, own, t) && TurnGrant(cfg, t, g)
  }

  /** Every grant of every run goes to the first message of a sender that is among the best,
      for the bytes that message needs next, at the priority of the sender's slot or better. */
  lemma GrantsAsked(cfg: Config, w: World, hosts: set<Addr>, sts: seq<State>, es: seq<Event>, i: nat)
    requires cfg.Valid() && Workload(w, hosts) && Run(cfg, w, hosts, sts, es) && i < |es|
    ensures Asserts(cfg, w, sts[i], es[i])
    ensures var (d, gs) := GrantsOf(cfg, w, sts[i], es[i]); forall k :: 0 <= k < |gs| ==> Asked(cfg, Own(w, d), gs[k])
  {
    NoAssertionFails(cfg, w, hosts, sts, es, i);
    EventAsked(cfg, w, sts[i], es[i]);
  }

  lemma EventAsked(cfg: Config, w: World, st: State, e: Event)
    requires DistinctKeys(w) && Asserts(cfg, w, st, e)
    ensures var (d, gs) := GrantsOf(cfg, w, st, e); forall k :: 0 <= k < |gs| ==> Asked(cfg, Own(w, d), gs[k])
  {
    var (d, gs) := GrantsOf(cfg, w, st, e);
    forall k | 0 <= k < |gs|
      ensures Asked(cfg, Own(w, d), gs[k])
    {
      match e
      case Arrive(p, _) =>
        var t := ArrivalTurns(cfg, Own(w, d), st.rx[d], p, k);
      case GrantTimer(d, s) =>
        var t := TimerTurns(cfg, Own(w, d), st.rx[d], s, k);
      case _ =>
    }
  }

  /** In every run a link that becomes free takes a waiting grant if there is one, else a
      queued data packet, and rests only when there is neither. */
  lemma LinkServesGrantsFirst(cfg: Config, w: World, hosts: set<Addr>, sts: seq<State>, es: seq<Event>, i: nat)
    requires cfg.Valid() && Workload(w, hosts) && Run(cfg, w, hosts, sts, es) && i < |es| && es[i].SendTimer?
    ensures var h, p := es[i].h, es[i].next;
      && h in sts[i].tx && h in sts[i + 1].tx && sts[i + 1].rx == sts[i].rx
      && var a, b := sts[i].tx[h], sts[i + 1].tx[h];
      && (a.grantQ != multiset{} ==>
            && p in a.grantQ && b.grantQ == a.grantQ - multiset{p} && b.queued == a.queued && b.busy
            && sts[i + 1].net == sts[i].net + multiset{p})
      && (a.grantQ == multiset{} && a.queued != multiset{} ==>
            && p in a.queued && b.queued == a.queued - multiset{p} && b.grantQ == multiset{} && b.busy
            && sts[i + 1].net == sts[i].net + multiset{p})
      && (a.grantQ == multiset{} == a.queued ==> b == a.(busy := false) && sts[i + 1].net == sts[i].net)
  {
    NoAssertionFails(cfg, w, hosts, sts, es, i);
    RunSafe(cfg, w, hosts, sts, es, i);
    assert Step(cfg, w, sts[i], es[i], sts[i + 1]);
    FreeLink(sts[i], es[i].h, es[i].next);
  }

  lemma FreeLink(st: State, h: Addr, p: Pkt)
    requires h in st.tx && st.tx[h].busy
    requires st.tx[h].grantQ == multiset{} && st.tx[h].queued != multiset{} ==> TransmitAsserts(st.tx[h], p)
    ensures var st' := LinkFree(st, h, p);
      && h in st'.tx && st'.rx == st.rx
      && var a, b := st.tx[h], st'.tx[h];
      && (a.grantQ != multiset{} ==>
            b == a.(grantQ := a.grantQ - multiset{p}) && st'.net == st.net + multiset{p})
      && (a.grantQ == multiset{} && a.queued != multiset{} ==>
            && p in a.queued && b.queued == a.queued - multiset{p} && b.grantQ == multiset{} && b.busy
            && st'.net == st.net + multiset{p})
      && (a.grantQ == multiset{} == a.queued ==> b == a.(busy := false) && st'.net == st.net)
  {
  }

  lemma RunStepWork(cfg: Config, w: World, st: State, e: Event, st': State)
    requires Inv(cfg, w, st) && Step(cfg, w, st, e, st')
    ensures HostsOk(w, FlowOf(st)) && HostsOk(w, FlowOf(st')) && Work(cfg, w, st') < Work(cfg, w, st)
  {
    StepOk(cfg, w, st, e);
    StepWork(cfg, w, st, e);
  }

  lemma RunHosts(cfg: Config, w: World, hosts: set<Addr>, sts: seq<State>, es: seq<Event>, i: nat)
    requires cfg.Valid() && Workload(w, hosts) && Run(cfg, w, hosts, sts, es) && i < |sts|
    ensures HostsOk(w, FlowOf(sts[i]))
  {
    RunSafe(cfg, w, hosts, sts, es, i);
  }

  /** The work left in state `i` of a run. */
  ghost function WorkAt(cfg: Config, w: World, hosts: set<Addr>, sts: seq<State>, es: seq<Event>, i: nat): nat
    requires cfg.Valid() && Workload(w, hosts) && Run(cfg, w, hosts, sts, es) && i < |sts|
  {
    RunHosts(cfg, w, hosts, sts, es, i);
    Work(cfg, w, sts[i])
  }

  lemma RunStepAt(cfg: Config, w: World, hosts: set<Addr>, sts: seq<State>, es: seq<Event>, i: nat)
    requires cfg.Valid() && Workload(w, hosts) && Run(cfg, w, hosts, sts, es) && i < |es|
    ensures WorkAt(cfg, w, hosts, sts, es, i + 1) < WorkAt(cfg, w, hosts, sts, es, i)
  {
    RunSafe(cfg, w, hosts, sts, es, i);
    RunStepWork(cfg, w, sts[i], es[i], sts[i + 1]);
  }

  lemma {:induction false} RunWork(cfg: Config, w: World, hosts: set<Addr>, sts: seq<State>, es: seq<Event>, i: nat)
    requires cfg.Valid() && Workload(w, hosts) && Run(cfg, w, hosts, sts, es) && i < |sts|
    ensures WorkAt(cfg, w, hosts, sts, es, i) + i <= WorkAt(cfg, w, hosts, sts, es, 0)
  {
    if i > 0 {
      RunWork(cfg, w, hosts, sts, es, i - 1);
      RunStepAt(cfg, w, hosts, sts, es, i - 1);
    }
  }

  /** Every run ends: the workload bounds the number of steps. */
  lemma RunsEnd(cfg: Config, w: World, hosts: set<Addr>, sts: seq<State>, es: seq<Event>)
    requires cfg.Valid() && Workload(w, hosts) && Run(cfg, w, hosts, sts, es)
    ensures HostsOk(w, FlowOf(Init(cfg, w, hosts))) && |es| <= Work(cfg, w, Init(cfg, w, hosts))
  {
    RunWork(cfg, w, hosts, sts, es, |es|);
  }

  /** A run that cannot go on has delivered every message exactly once, and nothing else. */
  lemma MaximalRunDelivers(cfg: Config, w: World, hosts: set<Addr>, sts: seq<State>, es: seq<Event>)
    requires cfg.Valid() && Workload(w, hosts) && Run(cfg, w, hosts, sts, es)
    requires forall e :: !Enabled(cfg, w, sts[|es|], e)
    ensures sts[|es|].delivered == multiset(w.Keys)
  {
    var st := sts[|es|];
    RunSafe(cfg, w, hosts, sts, es, |es|);
    forall m
      ensures st.delivered[m] == if m in w then 1 else 0
    {
      if m in w {
        DeliveredOnce(cfg, w, st, m);
        if st.delivered[m] == 0 {
          var e := NeverStuck(cfg, w, st, m);
        }
      }
    }
  }

  // ---- what every reachable state says about a message ----

  lemma {:induction false} OnlySum(bag: multiset<Pkt>, m: MsgRef, w: Weight)
    requires !w.Load? && w.m == m
    ensures Sum(Only(bag, m), w) == Sum(bag, w)
    decreases |bag|
  {
    if bag == multiset{} {
    } else {
      var p :| p in bag;
      OnlySum(bag - multiset{p}, m, w);
      OnlyTake(bag, p, m);
      TakeSum(bag, p, w);
      if p.m == m {
        OnlyHas(bag, p);
        TakeSum(Only(bag, m), p, w);
      }
    }
  }

  lemma TakeSum(bag: multiset<Pkt>, p: Pkt, w: Weight)
    requires p in bag
    ensures Sum(bag, w) == Weigh(w, p) + Sum(bag - multiset{p}, w)
  {
    SumTake(bag, p);
  }

  /** How often a byte of a message has arrived. */
  ghost function TimesArrived(st: State, m: MsgRef, b: nat): nat { Sum(st.rcvd, Covers(m, b)) }

  /** A message is delivered at most once, and never with a byte missing or doubled. */
  lemma DeliveredOnce(cfg: Config, w: World, st: State, m: MsgRef)
    requires Inv(cfg, w, st) && m in w
    ensures st.delivered[m] <= 1
    ensures forall b: nat :: b < w[m].size ==> TimesArrived(st, m, b) <= 1
    ensures st.delivered[m] == 1 ==> forall b: nat :: b < w[m].size ==> TimesArrived(st, m, b) == 1
  {
    var v := ViewOf(w, FlowOf(st), m);
    assert ViewOk(cfg, m, w[m], v);
    assert v.delivered == st.delivered[m];
    forall b: nat | b < w[m].size
      ensures TimesArrived(st, m, b) == Cover(v.rcvd, m, b)
      ensures Cover(v.rcvd, m, b) <= 1
    {
      OnlySum(st.rcvd, m, Covers(m, b));
      ArrivedAtMostOnce(cfg, m, w[m], v, b);
    }
  }

  lemma ArrivedAtMostOnce(cfg: Config, m: MsgRef, spec: Spec, v: View, b: nat)
    requires cfg.Valid() && ValidSpec(spec) && ViewOk(cfg, m, spec, v) && b < spec.size
    ensures Cover(v.rcvd, m, b) <= 1
  {
    SumNone(multiset{}, Covers(m, b));
    if LiveOk(cfg, m, spec, v) && v.known.Some? {
      assert Cover(Bag(v), m, b) + Cover(v.rcvd, m, b) + (if b >= v.known.value.offset then 1 else 0) == 1;
    }
  }

  /** The application gets a message as soon as its last byte has arrived. */
  lemma DeliveredWithLastByte(cfg: Config, w: World, st: State, m: MsgRef)
    requires Inv(cfg, w, st) && m in w && w[m].size > 0
    requires forall b: nat :: b < w[m].size ==> TimesArrived(st, m, b) >= 1
    ensures st.delivered[m] == 1
  {
    var v := ViewOf(w, FlowOf(st), m);
    assert ViewOk(cfg, m, w[m], v);
    assert v.delivered == st.delivered[m];
    forall b: nat | b < w[m].size
      ensures Cover(v.rcvd, m, b) >= 1
    {
      OnlySum(st.rcvd, m, Covers(m, b));
      assert TimesArrived(st, m, b) >= 1;
    }
    SumNone(multiset{}, Covers(m, 0));
    assert Cover(v.rcvd, m, 0) >= 1;
    if LiveOk(cfg, m, w[m], v) {
      var b := MissingByte(cfg, m, w[m], v);
    }
  }

  /** A message that is under way lacks some byte. */
  lemma MissingByte(cfg: Config, m: MsgRef, spec: Spec, v: View) returns (b: nat)
    requires cfg.Valid() && ValidSpec(spec) && LiveOk(cfg, m, spec, v) && spec.size > 0
    ensures b < spec.size && Cover(v.rcvd, m, b) == 0
  {
    b := 0;
    if v.known.None? {
      SumNone(multiset{}, Covers(m, 0));
    } else {
      var i := v.known.value;
      var q: Pkt;
      if i.toGrant > 0 {
        b := i.offset;
      } else if Sum(Bag(v), UBytes(m)) > 0 {
        q := SumPositiveHas(Bag(v), UBytes(m));
        b := q.first;
        ByteUnderWay(m, i, Bag(v), q);
      } else {
        q := SumPositiveHas(Bag(v), SBytes(m));
        b := q.first;
        ByteUnderWay(m, i, Bag(v), q);
      }
      assert Cover(Bag(v), m, b) + Cover(v.rcvd, m, b) + (if b >= i.offset then 1 else 0) == 1;
    }
  }

  lemma ByteUnderWay(m: MsgRef, i: InMsg, bag: multiset<Pkt>, q: Pkt)
    requires AllFit(m, i, bag) && q in bag && q.m == m && q.len > 0 && i.totalUnsched <= i.size
    ensures q.first < i.size && Cover(bag, m, q.first) >= 1
  {
    assert PktFits(i, q);
    SumAtLeast(bag, q, Covers(m, q.first));
  }

  /** What a receiver has in flight for a message is exactly what its sender has queued,
      what is in the network and what is granted but not sent; and it is bounded. */
  lemma InFlightExact(cfg: Config, w: World, st: State, m: MsgRef)
    requires Inv(cfg, w, st) && m in w && w[m].dst in st.rx && m.src in st.rx[w[m].dst].sx
    requires m.id in st.rx[w[m].dst].sx[m.src].incomplete && m.src in st.tx && w[m].dst in st.tx
    ensures var i := st.rx[w[m].dst].sx[m.src].incomplete[m.id];
      && i.inFlight == Sum(st.tx[m.src].queued, WireBytes(m)) + Sum(st.net, WireBytes(m))
                       + Sum(st.tx[w[m].dst].grantQ, WireBytes(m))
      && 0 <= i.inFlight <= InFlightLimit(cfg, w[m].size)
  {
    var d, f, v := w[m].dst, FlowOf(st), ViewOf(w, FlowOf(st), m);
    assert ViewOk(cfg, m, w[m], v);
    assert f.mesgs[d] == MesgsOf(st.rx[d]);
    assert v.known == KnownIn(f.mesgs[d], m);
    BagSum(st.tx[m.src].queued, st.net, st.tx[d].grantQ, m);
    assert v.queued == Queued(f, m) && v.flying == Flying(w, f, m);
  }

  lemma BagSum(queued: multiset<Pkt>, net: multiset<Pkt>, grantQ: multiset<Pkt>, m: MsgRef)
    ensures Sum(Only(queued, m) + Only(net + grantQ, m), WireBytes(m))
         == Sum(queued, WireBytes(m)) + Sum(net, WireBytes(m)) + Sum(grantQ, WireBytes(m))
  {
    SumOfUnion(Only(queued, m), Only(net + grantQ, m), WeightFn(WireBytes(m)));
    OnlySum(queued, m, WireBytes(m));
    OnlySum(net + grantQ, m, WireBytes(m));
    SumOfUnion(net, grantQ, WeightFn(WireBytes(m)));
  }

  /** In every run each counter of a receiver is the on-wire size of what was announced or
      granted at its priority and has not arrived. */
  lemma CountersExact(cfg: Config, w: World, hosts: set<Addr>, sts: seq<State>, es: seq<Event>, i: nat,
                      d: Addr, prio: nat)
    requires cfg.Valid() && Workload(w, hosts) && Run(cfg, w, hosts, sts, es) && i < |sts|
    requires d in sts[i].rx && prio < cfg.allPrio
    ensures HostsOk(w, FlowOf(sts[i]))
    ensures prio < |sts[i].rx[d].unschedCtr| && sts[i].rx[d].unschedCtr[prio] == USum(w, FlowOf(sts[i]), d, prio)
    ensures prio < |sts[i].rx[d].schedCtr| && sts[i].rx[d].schedCtr[prio] == SSum(w, FlowOf(sts[i]), d, prio)
  {
    RunSafe(cfg, w, hosts, sts, es, i);
    assert CtrAt(cfg, w, FlowOf(sts[i]), d, sts[i].rx[d]);
  }

  /** In every run a receiver's bytes in flight over all priorities are zero exactly when
      nothing that was announced or granted to it is still on its way: the end of its
      active period. */
  lemma InFlightZeroIffArrived(cfg: Config, w: World, hosts: set<Addr>, sts: seq<State>, es: seq<Event>, i: nat,
                               d: Addr)
    requires cfg.Valid() && Workload(w, hosts) && Run(cfg, w, hosts, sts, es) && i < |sts| && d in sts[i].rx
    ensures HostsOk(w, FlowOf(sts[i])) && InFlightBytes(sts[i].rx[d]) >= 0
    ensures InFlightBytes(sts[i].rx[d]) == 0 <==> AllArrived(w, FlowOf(sts[i]), d)
  {
    RunSafe(cfg, w, hosts, sts, es, i);
    assert CtrAt(cfg, w, FlowOf(sts[i]), d, sts[i].rx[d]);
    BytesZero(cfg, w, FlowOf(sts[i]), d, sts[i].rx[d]);
  }

  /** What an arriving data packet is subtracted from: the counters of its message and, for
      a known message, the receiver's counter of its kind and priority are large enough. */
  predicate Covered(cfg: Config, rx: Rx, p: Pkt)
    requires p.m.id in SxFor(cfg, rx, p.m.src).incomplete || p.Unsched?
  {
    var x := SxFor(cfg, rx, p.m.src);
    var i := Lookup(x, p);
    && i.inFlight >= DataWire(p) && i.toReceive >= p.len && (p.Sched? ==> i.grantedInFlight >= p.len)
    && (p.m.id in x.incomplete ==>
          var ctr := if p.Unsched? then rx.unschedCtr else rx.schedCtr;
          p.prio < |ctr| && ctr[p.prio] >= DataWire(p))
  }

  /** No unsigned counter wraps in any step of any run: before an arriving data packet is
      subtracted everything it is subtracted from is at least as large. */
  lemma NoUnderflow(cfg: Config, w: World, hosts: set<Addr>, sts: seq<State>, es: seq<Event>, i: nat)
    requires cfg.Valid() && Workload(w, hosts) && Run(cfg, w, hosts, sts, es) && i < |es|
    requires es[i].Arrive? && !es[i].p.Grant?
    ensures var p := es[i].p;
      && p.dst in sts[i].rx && (p.m.id in SxFor(cfg, sts[i].rx[p.dst], p.m.src).incomplete || p.Unsched?)
      && Covered(cfg, sts[i].rx[p.dst], p)
  {
    RunSafe(cfg, w, hosts, sts, es, i);
    assert Step(cfg, w, sts[i], es[i], sts[i + 1]);
    ArrivalCovered(cfg, w, sts[i], es[i].p);
  }

  lemma ArrivalCovered(cfg: Config, w: World, st: State, p: Pkt)
    requires Inv(cfg, w, st) && CtrsOk(cfg, w, st) && p in st.net && !p.Grant?
    ensures p.dst in st.rx && (p.m.id in SxFor(cfg, st.rx[p.dst], p.m.src).incomplete || p.Unsched?)
    ensures Covered(cfg, st.rx[p.dst], p)
  {
    var f := FlowOf(st);
    LookupSeen(cfg, w, f, p);
    FlyingHere(cfg, w, f, p);
    assert f.mesgs[p.dst] == MesgsOf(st.rx[p.dst]);
    LookupIs(cfg, st.rx[p.dst], p);
    SeenCovers(cfg, p.m, w[p.m], ViewOf(w, f, p.m), p);
    if KnownIn(f.mesgs[p.dst], p.m).Some? {
      CounterCovers(cfg, w, f, p.dst, st.rx[p.dst], p);
    }
  }

  /** The counters of a message cover each of its packets under way. */
  lemma SeenCovers(cfg: Config, m: MsgRef, spec: Spec, v: View, p: Pkt)
    requires cfg.Valid() && ValidSpec(spec) && LiveOk(cfg, m, spec, v) && p in Bag(v) && !p.Grant?
    ensures p.m == m && p.prio < cfg.allPrio
    ensures var i := Seen(cfg, m, spec, v);
      i.inFlight >= DataWire(p) && i.toReceive >= p.len && (p.Sched? ==> i.grantedInFlight >= p.len)
  {
    if v.known.Some? {
      AgreedCovers(m, v.known.value, Bag(v), v.rcvd, p);
    } else {
      PlanAllFit(cfg, m, spec);
      PlanCovers(cfg, m, spec, p);
    }
  }

  lemma AgreedCovers(m: MsgRef, i: InMsg, bag: multiset<Pkt>, rcvd: multiset<Pkt>, p: Pkt)
    requires Agrees(m, i, bag, rcvd) && p in bag && p.m == m && !p.Grant?
    ensures i.inFlight >= DataWire(p) && i.toReceive >= p.len && (p.Sched? ==> i.grantedInFlight >= p.len)
  {
    SumAtLeast(bag, p, WireBytes(m));
    SumAtLeast(bag, p, UBytes(m));
    SumAtLeast(bag, p, SBytes(m));
  }

  lemma PlanCovers(cfg: Config, m: MsgRef, spec: Spec, p: Pkt)
    requires cfg.Valid() && ValidSpec(spec) && p in multiset(Plan(cfg, m, spec)) && p.Unsched? && p.m == m
    ensures BytesOnWire(Unscheduled(cfg, spec.size), UNSCHED_DATA) >= DataWire(p) && spec.size >= p.len
  {
    PlanCounts(cfg, m, spec);
    UnschedWeighs(multiset(Plan(cfg, m, spec)), m, p);
  }

  lemma UnschedWeighs(bag: multiset<Pkt>, m: MsgRef, p: Pkt)
    requires p in bag && p.Unsched? && p.m == m
    ensures Sum(bag, WireBytes(m)) >= DataWire(p) && Sum(bag, UBytes(m)) >= p.len
  {
    SumAtLeast(bag, p, WireBytes(m));
    SumAtLeast(bag, p, UBytes(m));
  }

  /** A receiver's counters cover each packet under way of a message it knows. */
  lemma CounterCovers(cfg: Config, w: World, f: Net, d: Addr, rx: Rx, p: Pkt)
    requires HostsOk(w, f) && CtrAt(cfg, w, f, d, rx) && p.m in w && w[p.m].dst == d && p.prio < cfg.allPrio
    requires ViewOf(w, f, p.m).known.Some? && p in Bag(ViewOf(w, f, p.m)) && !p.Grant?
    ensures |rx.unschedCtr| == |rx.schedCtr| == cfg.allPrio
    ensures (if p.Unsched? then rx.unschedCtr else rx.schedCtr)[p.prio] >= DataWire(p)
  {
    PartsCover(w, f, d, p);
    var prio := p.prio;
    assert rx.unschedCtr[prio] == USum(w, f, d, prio) && rx.schedCtr[prio] == SSum(w, f, d, prio);
  }

  lemma PartsCover(w: World, f: Net, d: Addr, p: Pkt)
    requires HostsOk(w, f) && p.m in w && w[p.m].dst == d
    requires ViewOf(w, f, p.m).known.Some? && p in Bag(ViewOf(w, f, p.m)) && !p.Grant?
    ensures (if p.Unsched? then USum(w, f, d, p.prio) else SSum(w, f, d, p.prio)) >= DataWire(p)
  {
    var v := ViewOf(w, f, p.m);
    PartCovers(v, p);
    if p.Unsched? {
      TotalCovers(UParts(w, f, d, p.prio), p.m, DataWire(p));
    } else {
      TotalCovers(SParts(w, f, d, p.prio), p.m, DataWire(p));
    }
  }

  lemma PartCovers(v: View, p: Pkt)
    requires v.known.Some? && p in Bag(v) && !p.Grant?
    ensures (if p.Unsched? then UPart(v, p.m, p.prio) else SPart(v, p.m, p.prio)) >= DataWire(p)
  {
    SumAtLeast(Bag(v), p, if p.Unsched? then UWire(p.m, p.prio) else SWire(p.m, p.prio));
  }

  lemma TotalCovers<K>(f: map<K, nat>, k: K, n: nat)
    requires k in f && f[k] >= n
    ensures Total(f) >= n
  {
    TotalAt(f, k);
  }

  // ---- the assumptions can be met ----

  /** A configuration, a workload of one message of one byte, and a run of one step. */
  lemma SomeRun() returns (cfg: Config, w: World, hosts: set<Addr>, sts: seq<State>, es: seq<Event>)
    ensures cfg.Valid() && Workload(w, hosts) && w != map[] && Run(cfg, w, hosts, sts, es) && |es| == 1
  {
    cfg := Config(2, 1, 1, 1, 1, MAX_UNSCHED, 0, CbfGraduated, [UINT32_MAX], 0);
    var m := MsgRef(0, 0);
    w, hosts := map[m := Spec(1, 1, 0)], {0, 1};
    SmallIsValid(cfg, w, m);
    var e := FirstStep(cfg, w, hosts, m);
    es, sts := [e], [Init(cfg, w, hosts), Next(cfg, w, Init(cfg, w, hosts), e)];
  }

  lemma SmallIsValid(cfg: Config, w: World, m: MsgRef)
    requires cfg == Config(2, 1, 1, 1, 1, MAX_UNSCHED, 0, CbfGraduated, [UINT32_MAX], 0)
    requires m == MsgRef(0, 0) && w == map[m := Spec(1, 1, 0)]
    ensures cfg.Valid() && Workload(w, {0, 1}) && m in w
  {
  }

  /** In the initial state any message may be handed over. */
  lemma FirstStep(cfg: Config, w: World, hosts: set<Addr>, m: MsgRef) returns (e: Event)
    requires cfg.Valid() && Workload(w, hosts) && m in w
    ensures Enabled(cfg, w, Init(cfg, w, hosts), e) && Asserts(cfg, w, Init(cfg, w, hosts), e)
  {
    var init, plan := Init(cfg, w, hosts), Plan(cfg, m, w[m]);
    e := AppSend(m, plan[0]);
    assert plan[0] in plan;
    assert plan[0] in Accepted(cfg, w, init, m).tx[m.src].queued;
    InitOk(cfg, w, hosts);
    StepOk(cfg, w, init, e);
  }
}

/** Progress of the protocol: while a message is undelivered some step is possible, every
    step uses up work, and so every maximal run ends with every message delivered. */
module Progress {
  import opened Sums
  import opened HomaTypes
  import opened Inbound
  import opened SenderState
  import opened Receiver
  import opened ReceiverEvents
  import opened ReceiverEffects
  import opened Sender
  import opened Message
  import opened Flow
  import opened Protocol
  import opened Safety

  // ---- a measure of the work left ----

  /** How far a message has come, as far as its future work is concerned. */
  datatype Phase = Waiting | Unknown | Known

  ghost function PhaseIn(w: World, f: Net, m: MsgRef): Phase
    requires m in w && w[m].dst in f.mesgs
  {
    if m in f.todo then Waiting
    else if f.delivered[m] == 0 && KnownIn(f.mesgs[w[m].dst], m).None? then Unknown
    else Known
  }

  /** Work a message will bring: eight units for every byte that needs a grant until its
      receiver knows of it, and until it is handed over its unscheduled packets. */
  function PhaseWork(cfg: Config, size: nat, phase: Phase): nat {
    match phase
    case Waiting => 8 * (size - Unscheduled(cfg, size)) + 3 * |Sizes(cfg, size)| + 2
    case Unknown => 8 * (size - Unscheduled(cfg, size))
    case Known => 0
  }

  ghost function MesgWork(cfg: Config, w: World, f: Net, m: MsgRef): nat
    requires m in w && w[m].dst in f.mesgs
  {
    PhaseWork(cfg, w[m].size, PhaseIn(w, f, m))
  }

  function TxLoad(tx: Tx): nat { 3 * |tx.queued| + 6 * |tx.grantQ| + if tx.busy then 1 else 0 }

  ghost function MesgWorks(cfg: Config, w: World, f: Net): map<MsgRef, nat>
    requires HostsOk(w, f)
  {
    map m | m in w :: MesgWork(cfg, w, f, m)
  }

  ghost function TxLoads(st: State): map<Addr, nat> { map h | h in st.tx :: TxLoad(st.tx[h]) }

  ghost function RxLoads(st: State): map<Addr, nat> { map d | d in st.rx :: RxWork(st.rx[d]) }

  ghost function Work(cfg: Config, w: World, st: State): nat
    requires HostsOk(w, FlowOf(st))
  {
    Total(MesgWorks(cfg, w, FlowOf(st))) + Total(TxLoads(st)) + Total(RxLoads(st)) + Sum(st.net, Load)
  }

  ghost function LinkLoad(l: Link): nat { TxLoad(l.tx) + Sum(l.net, Load) }

  lemma EmitLoad(tx: Tx, net: multiset<Pkt>, g: Pkt)
    requires g.Grant?
    ensures LinkLoad(Link(Emit(tx, g), net + Emitted(tx, g))) <= LinkLoad(Link(tx, net)) + 6
  {
    SumAdd(net, g);
    assert Sum(net + multiset{g}, Load) == Sum(net, Load) + Weigh(Load, g);
    assert net + multiset{} == net;
  }

  lemma {:induction false} EmitSeqLoad(l: Link, gs: seq<Pkt>)
    requires forall i :: 0 <= i < |gs| ==> gs[i].Grant?
    ensures LinkLoad(EmitSeq(l, gs)) <= LinkLoad(l) + 6 * |gs|
    decreases |gs|
  {
    if gs != [] {
      EmitLoad(l.tx, l.net, gs[0]);
      EmitSeqLoad(Link(Emit(l.tx, gs[0]), l.net + Emitted(l.tx, gs[0])), gs[1..]);
    }
  }

  lemma {:induction false} FitAreGrants(cfg: Config, d: Addr, ms: Mesgs, gs: seq<Pkt>)
    requires GrantsFit(cfg, d, ms, gs)
    ensures forall i :: 0 <= i < |gs| ==> gs[i].Grant?
    decreases |gs|
  {
    if gs != [] {
      FitAreGrants(cfg, d, ApplyGrant(ms, gs[0]), gs[1..]);
      assert forall i :: 1 <= i < |gs| ==> gs[i] == gs[1..][i - 1];
    }
  }

  lemma TransmitLoad(tx: Tx, net: multiset<Pkt>, p: Pkt)
    requires TransmitAsserts(tx, p) && !p.Grant?
    ensures LinkLoad(Link(Transmit(tx, p), net + multiset{p})) + 2 + (if tx.busy then 1 else 0)
         == LinkLoad(Link(tx, net)) + 1
  {
    SumAdd(net, p);
    assert Sum(net + multiset{p}, Load) == Sum(net, Load) + Weigh(Load, p);
    assert tx.queued == tx.queued - multiset{p} + multiset{p};
  }

  lemma PopLoad(tx: Tx, net: multiset<Pkt>, g: Pkt)
    requires g in tx.grantQ && tx.busy
    ensures LinkLoad(Link(tx.(grantQ := tx.grantQ - multiset{g}), net + multiset{g})) + 2 <= LinkLoad(Link(tx, net))
  {
    SumAdd(net, g);
    assert Sum(net + multiset{g}, Load) == Sum(net, Load) + Weigh(Load, g);
    assert tx.grantQ == tx.grantQ - multiset{g} + multiset{g};
  }

  /** Work of a state in which host `h` has changed its sender. */
  lemma WorkTx(st: State, h: Addr, x: Tx)
    requires h in st.tx
    ensures Total(TxLoads(WithTx(st, h, x))) == Total(TxLoads(st)) - TxLoad(st.tx[h]) + TxLoad(x)
  {
    assert TxLoads(WithTx(st, h, x)) == TxLoads(st)[h := TxLoad(x)];
    TotalUpdate(TxLoads(st), h, TxLoad(x));
  }

  lemma WorkRx(st: State, d: Addr, x: Rx)
    requires d in st.rx
    ensures Total(RxLoads(st.(rx := st.rx[d := x]))) == Total(RxLoads(st)) - RxWork(st.rx[d]) + RxWork(x)
  {
    assert RxLoads(st.(rx := st.rx[d := x])) == RxLoads(st)[d := RxWork(x)];
    TotalUpdate(RxLoads(st), d, RxWork(x));
  }

  /** Messages `m` is the only one whose work may differ. */
  lemma MesgWorksAt(cfg: Config, w: World, f: Net, g: Net, m: MsgRef)
    requires HostsOk(w, f) && HostsOk(w, g) && m in w
    requires forall n :: n in w && n != m ==> MesgWork(cfg, w, g, n) == MesgWork(cfg, w, f, n)
    ensures Total(MesgWorks(cfg, w, g)) == Total(MesgWorks(cfg, w, f)) - MesgWork(cfg, w, f, m) + MesgWork(cfg, w, g, m)
  {
    TotalChange(MesgWorks(cfg, w, f), MesgWorks(cfg, w, g), m);
  }

  lemma MesgWorksSame(cfg: Config, w: World, f: Net, g: Net)
    requires HostsOk(w, f) && HostsOk(w, g)
    requires forall n :: n in w ==> MesgWork(cfg, w, g, n) == MesgWork(cfg, w, f, n)
    ensures Total(MesgWorks(cfg, w, g)) == Total(MesgWorks(cfg, w, f))
  {
    assert MesgWorks(cfg, w, g) == MesgWorks(cfg, w, f);
  }

  lemma {:induction false} GrantsKnow(ms: Mesgs, gs: seq<Pkt>, n: MsgRef)
    ensures KnownIn(ApplyGrants(ms, gs), n).None? <==> KnownIn(ms, n).None?
    decreases |gs|
  {
    if gs != [] {
      GrantsKnow(ApplyGrant(ms, gs[0]), gs[1..], n);
    }
  }

  lemma HostsKept(w: World, st: State, st': State)
    requires HostsOk(w, FlowOf(st)) && st'.tx.Keys == st.tx.Keys && st'.rx.Keys == st.rx.Keys
    ensures HostsOk(w, FlowOf(st'))
  {
    assert FlowOf(st').mesgs.Keys == st'.rx.Keys;
    assert FlowOf(st).mesgs.Keys == st.rx.Keys;
  }

  // ---- every step uses up work ----

  /** A step that changes only host `h`'s sender and the network. */
  lemma SenderStep(cfg: Config, w: World, st: State, st': State, h: Addr)
    requires HostsOk(w, FlowOf(st)) && h in st.tx && h in st'.tx
    requires st' == WithTx(st, h, st'.tx[h]).(net := st'.net)
    ensures HostsOk(w, FlowOf(st'))
    ensures Work(cfg, w, st') - LinkLoad(Link(st'.tx[h], st'.net))
         == Work(cfg, w, st) - LinkLoad(Link(st.tx[h], st.net))
  {
    HostsKept(w, st, st');
    MesgWorksSame(cfg, w, FlowOf(st), FlowOf(st'));
    WorkTx(st, h, st'.tx[h]);
    assert TxLoads(st') == TxLoads(WithTx(st, h, st'.tx[h]));
    assert RxLoads(st') == RxLoads(st);
  }

  lemma QueuedIsData(cfg: Config, w: World, st: State, h: Addr, p: Pkt)
    requires NetOk(cfg, w, FlowOf(st)) && h in st.tx && p in st.tx[h].queued
    ensures !p.Grant?
  {
    QueuedHere(cfg, w, FlowOf(st), h, p);
  }

  lemma KickWork(cfg: Config, w: World, st: State, h: Addr, next: Pkt)
    requires NetOk(cfg, w, FlowOf(st)) && KickAsserts(st, h, next)
    ensures HostsOk(w, FlowOf(Kick(st, h, next))) && Work(cfg, w, Kick(st, h, next)) <= Work(cfg, w, st)
  {
    if !st.tx[h].busy {
      QueuedIsData(cfg, w, st, h, next);
      TransmitLoad(st.tx[h], st.net, next);
      SenderStep(cfg, w, st, Kick(st, h, next), h);
    }
  }

  lemma SendTimerWork(cfg: Config, w: World, st: State, h: Addr, next: Pkt)
    requires NetOk(cfg, w, FlowOf(st))
    requires Enabled(cfg, w, st, SendTimer(h, next)) && Asserts(cfg, w, st, SendTimer(h, next))
    ensures HostsOk(w, FlowOf(LinkFree(st, h, next))) && Work(cfg, w, LinkFree(st, h, next)) < Work(cfg, w, st)
  {
    if st.tx[h].grantQ != multiset{} {
      PopLoad(st.tx[h], st.net, next);
    } else if st.tx[h].queued != multiset{} {
      QueuedIsData(cfg, w, st, h, next);
      TransmitLoad(st.tx[h], st.net, next);
    }
    SenderStep(cfg, w, st, LinkFree(st, h, next), h);
  }

  lemma TakeGrantLoad(tx: Tx, net: multiset<Pkt>, g: Pkt)
    requires g in net && g.Grant? && g.m.id in tx.out && tx.out[g.m.id].toSched >= 0
    ensures LinkLoad(Link(TakeGrant(tx, g), net - multiset{g})) < LinkLoad(Link(tx, net))
  {
    SumTake(net, g);
    assert Sum(net, Load) == Weigh(Load, g) + Sum(net - multiset{g}, Load);
  }

  lemma AnsweredWork(cfg: Config, w: World, st: State, g: Pkt)
    requires NetOk(cfg, w, FlowOf(st)) && g in st.net && GrantAsserts(st, g)
    ensures HostsOk(w, FlowOf(Answered(st, g))) && Work(cfg, w, Answered(st, g)) < Work(cfg, w, st)
  {
    TakeGrantLoad(st.tx[g.m.src], st.net, g);
    SenderStep(cfg, w, st, Answered(st, g), g.m.src);
  }

  lemma AcceptLoad(cfg: Config, tx: Tx, m: MsgRef, spec: Spec)
    requires cfg.Valid() && ValidSpec(spec)
    ensures TxLoad(Accept(cfg, tx, m, spec)) == TxLoad(tx) + 3 * |Sizes(cfg, spec.size)|
  {
    assert |multiset(Plan(cfg, m, spec))| == |Plan(cfg, m, spec)|;
  }

  lemma AcceptsPhase(cfg: Config, w: World, f: Net, m: MsgRef, n: MsgRef)
    requires NetOk(cfg, w, f) && m in f.todo && m in w && n in w
    ensures PhaseIn(w, f, m) == Waiting
    ensures PhaseIn(w, Accepts(cfg, w, f, m), n) == if n == m then Unknown else PhaseIn(w, f, n)
  {
    ToCome(cfg, w, f, m);
    var v := ViewOf(w, f, m);
    assert v.delivered == f.delivered[m] && v.known == KnownIn(f.mesgs[w[m].dst], m);
  }

  lemma AcceptMesgWork(cfg: Config, w: World, f: Net, m: MsgRef)
    requires NetOk(cfg, w, f) && m in f.todo && m in w
    ensures HostsOk(w, Accepts(cfg, w, f, m))
    ensures Total(MesgWorks(cfg, w, Accepts(cfg, w, f, m)))
         == Total(MesgWorks(cfg, w, f)) - 3 * |Sizes(cfg, w[m].size)| - 2
  {
    var g := Accepts(cfg, w, f, m);
    forall n | n in w
      ensures PhaseIn(w, g, n) == if n == m then Unknown else PhaseIn(w, f, n)
    {
      AcceptsPhase(cfg, w, f, m, n);
    }
    AcceptsPhase(cfg, w, f, m, m);
    MesgWorksAt(cfg, w, f, g, m);
  }

  lemma AcceptedTxLoads(cfg: Config, w: World, st: State, m: MsgRef)
    requires cfg.Valid() && m in w && m.src in st.tx && ValidSpec(w[m])
    ensures var st1 := Accepted(cfg, w, st, m);
      && Total(TxLoads(st1)) == Total(TxLoads(st)) + 3 * |Sizes(cfg, w[m].size)|
      && RxLoads(st1) == RxLoads(st) && st1.net == st.net
  {
    var x := Accept(cfg, st.tx[m.src], m, w[m]);
    AcceptLoad(cfg, st.tx[m.src], m, w[m]);
    WorkTx(st, m.src, x);
    assert TxLoads(Accepted(cfg, w, st, m)) == TxLoads(WithTx(st, m.src, x));
  }

  lemma AcceptedWork(cfg: Config, w: World, st: State, m: MsgRef)
    requires NetOk(cfg, w, FlowOf(st)) && m in st.todo && m in w && m.src in st.tx && ValidSpec(w[m])
    ensures HostsOk(w, FlowOf(Accepted(cfg, w, st, m))) && Work(cfg, w, Accepted(cfg, w, st, m)) < Work(cfg, w, st)
  {
    assert FlowOf(Accepted(cfg, w, st, m)) == Accepts(cfg, w, FlowOf(st), m);
    AcceptMesgWork(cfg, w, FlowOf(st), m);
    AcceptedTxLoads(cfg, w, st, m);
  }

  // ---- receiver events ----

  /** An event at receiver `d` that leaves it in state `rx` and sends the grants `gs`. */
  lemma ReceiverStep(cfg: Config, w: World, st: State, d: Addr, rx: Rx, gs: seq<Pkt>)
    requires HostsOk(w, FlowOf(st)) && d in st.rx && d in st.tx
    requires forall i :: 0 <= i < |gs| ==> gs[i].Grant?
    ensures var e := EmitAll(st.(rx := st.rx[d := rx]), d, gs);
      && HostsOk(w, FlowOf(e))
      && Total(TxLoads(e)) + Total(RxLoads(e)) + Sum(e.net, Load)
         <= Total(TxLoads(st)) + Total(RxLoads(st)) + Sum(st.net, Load) - RxWork(st.rx[d]) + RxWork(rx) + 6 * |gs|
  {
    var st1 := st.(rx := st.rx[d := rx]);
    HostsKept(w, st, EmitAll(st1, d, gs));
    WorkRx(st, d, rx);
    EmitAllLoad(st1, d, gs);
    assert TxLoads(st1) == TxLoads(st);
  }

  lemma EmitAllLoad(st: State, d: Addr, gs: seq<Pkt>)
    requires d in st.tx && forall i :: 0 <= i < |gs| ==> gs[i].Grant?
    ensures var e := EmitAll(st, d, gs);
      && RxLoads(e) == RxLoads(st)
      && Total(TxLoads(e)) + Sum(e.net, Load) <= Total(TxLoads(st)) + Sum(st.net, Load) + 6 * |gs|
  {
    var e := EmitAll(st, d, gs);
    EmitSeqLoad(Link(st.tx[d], st.net), gs);
    WorkTx(st, d, e.tx[d]);
    assert TxLoads(e) == TxLoads(WithTx(st, d, e.tx[d]));
    assert RxLoads(e) == RxLoads(st);
  }

  lemma TimerMoves(cfg: Config, w: World, st: State, d: Addr, s: Addr)
    requires TimerAsserts(cfg, w, st, d, s)
    ensures var g := FiredAt(cfg, w, st, d, s);
      && (forall i :: 0 <= i < |g.grants| ==> g.grants[i].Grant?)
      && MesgsOf(g.rx) == ApplyGrants(MesgsOf(st.rx[d]), g.grants)
  {
    var rx, g := st.rx[d], FiredAt(cfg, w, st, d, s);
    TimerRemoveOk(cfg, Own(w, d), rx, s);
    TimerSame(cfg, rx, s);
    ReactEffect(cfg, Own(w, d), Remove(cfg, TimerOff(rx, s), s), s);
    FitAreGrants(cfg, Remove(cfg, TimerOff(rx, s), s).addr, MesgsOf(rx), g.grants);
  }

  lemma TimerMesgWork(cfg: Config, w: World, st: State, d: Addr, g: Granted)
    requires HostsOk(w, FlowOf(st)) && d in st.rx && d in st.tx
    requires MesgsOf(g.rx) == ApplyGrants(MesgsOf(st.rx[d]), g.grants)
    ensures var e := EmitAll(st.(rx := st.rx[d := g.rx]), d, g.grants);
      HostsOk(w, FlowOf(e)) && Total(MesgWorks(cfg, w, FlowOf(e))) == Total(MesgWorks(cfg, w, FlowOf(st)))
  {
    var e := EmitAll(st.(rx := st.rx[d := g.rx]), d, g.grants);
    HostsKept(w, st, e);
    GrantedMesgWorks(cfg, w, FlowOf(st), FlowOf(e), d, g.grants);
  }

  lemma GrantTimerWork(cfg: Config, w: World, st: State, d: Addr, s: Addr)
    requires HostsOk(w, FlowOf(st)) && TimerAsserts(cfg, w, st, d, s) && st.rx[d].sx[s].timer
    ensures var g := FiredAt(cfg, w, st, d, s);
            var e := EmitAll(st.(rx := st.rx[d := g.rx]), d, g.grants);
      HostsOk(w, FlowOf(e)) && Work(cfg, w, e) < Work(cfg, w, st)
  {
    var g := FiredAt(cfg, w, st, d, s);
    TimerMoves(cfg, w, st, d, s);
    TimerMesgWork(cfg, w, st, d, g);
    TimerWork(cfg, Own(w, d), st.rx[d], s);
    ReceiverStep(cfg, w, st, d, g.rx, g.grants);
  }

  /** The first packet of a message turns the work it will bring into work of its receiver. */
  ghost function Announcing(cfg: Config, rx: Rx, p: Pkt): int
    requires InboundAsserts(SxFor(cfg, rx, p.m.src), p)
  {
    if p.m.id in SxFor(cfg, rx, p.m.src).incomplete then 0 else 8 * Lookup(SxFor(cfg, rx, p.m.src), p).toGrant
  }

  lemma DataPhase(cfg: Config, w: World, f: Net, p: Pkt)
    requires NetOk(cfg, w, f) && p in f.net && !p.Grant?
    ensures p.m in w && w[p.m].dst == p.dst && p.dst in f.mesgs && p.m !in f.todo
    ensures PhaseIn(w, f, p.m) == if KnownIn(f.mesgs[p.dst], p.m).Some? then Known else Unknown
    ensures KnownIn(f.mesgs[p.dst], p.m).None? ==>
      p.Unsched? && LookupIn(f.mesgs[p.dst], p).toGrant == w[p.m].size - Unscheduled(cfg, w[p.m].size)
  {
    LookupSeen(cfg, w, f, p);
    FlyingHere(cfg, w, f, p);
    var v := ViewOf(w, f, p.m);
    assert v.known == KnownIn(f.mesgs[p.dst], p.m) && v.delivered == f.delivered[p.m] && v.todo == (p.m in f.todo);
  }

  lemma DataMesgWork(cfg: Config, w: World, f: Net, p: Pkt, rx: Rx)
    requires NetOk(cfg, w, f) && p in f.net && !p.Grant? && p.dst in f.mesgs && f.mesgs[p.dst] == MesgsOf(rx)
    requires InboundAsserts(SxFor(cfg, rx, p.m.src), p)
    ensures p.m in w && w[p.m].dst == p.dst && MesgWork(cfg, w, f, p.m) == Announcing(cfg, rx, p)
  {
    DataPhase(cfg, w, f, p);
    LookupIs(cfg, rx, p);
  }

  lemma ReceivesPhase(w: World, f: Net, p: Pkt, j: InMsg, n: MsgRef)
    requires HostsOk(w, f) && p.dst in f.mesgs && p.m in w && w[p.m].dst == p.dst && p.m !in f.todo && n in w
    ensures PhaseIn(w, Receives(f, p, j), n) == if n == p.m then Known else PhaseIn(w, f, n)
  {
    ReceivesKnown(w, f, p, j, n);
    ReceivesLogs(f, p, j, n);
  }

  lemma ReceivesMesgWorks(cfg: Config, w: World, f: Net, p: Pkt, j: InMsg)
    requires HostsOk(w, f) && p.dst in f.mesgs && p.m in w && w[p.m].dst == p.dst && p.m !in f.todo
    ensures HostsOk(w, Receives(f, p, j))
    ensures Total(MesgWorks(cfg, w, Receives(f, p, j))) == Total(MesgWorks(cfg, w, f)) - MesgWork(cfg, w, f, p.m)
  {
    forall n | n in w
      ensures PhaseIn(w, Receives(f, p, j), n) == if n == p.m then Known else PhaseIn(w, f, n)
    {
      ReceivesPhase(w, f, p, j, n);
    }
    MesgWorksAt(cfg, w, f, Receives(f, p, j), p.m);
  }

  lemma GrantedMesgWorks(cfg: Config, w: World, f: Net, g: Net, d: Addr, gs: seq<Pkt>)
    requires HostsOk(w, f) && HostsOk(w, g) && d in f.mesgs
    requires g.todo == f.todo && g.delivered == f.delivered && g.mesgs == f.mesgs[d := ApplyGrants(f.mesgs[d], gs)]
    ensures Total(MesgWorks(cfg, w, g)) == Total(MesgWorks(cfg, w, f))
  {
    forall n | n in w
      ensures MesgWork(cfg, w, g, n) == MesgWork(cfg, w, f, n)
    {
      GrantsKnow(f.mesgs[d], gs, n);
      assert PhaseIn(w, g, n) == PhaseIn(w, f, n);
    }
    MesgWorksSame(cfg, w, f, g);
  }

  /** A data packet and the grants it led to, as moves of the flow. */
  lemma DataMoves(cfg: Config, w: World, st: State, p: Pkt) returns (j: InMsg)
    requires NetOk(cfg, w, FlowOf(st)) && p in st.net && !p.Grant? && ArrivalAsserts(cfg, w, st, p)
    requires st.rx[p.dst].addr == p.dst
    ensures p.dst in FlowOf(st).mesgs
    ensures var a, r := ArrivedAt(cfg, w, st, p), Receives(FlowOf(st), p, j);
      && (forall i :: 0 <= i < |a.grants| ==> a.grants[i].Grant?)
      && MesgsOf(a.rx) == ApplyGrants(r.mesgs[p.dst], a.grants) && a.complete == (j.toReceive == 0)
  {
    var a, rx := ArrivedAt(cfg, w, st, p), st.rx[p.dst];
    DataWelcome(cfg, w, st, p);
    ArrivalMesgs(cfg, Own(w, p.dst), rx, p);
    j := Fill(LookupIn(MesgsOf(rx), p), p);
    FitAreGrants(cfg, p.dst, Receives(FlowOf(st), p, j).mesgs[p.dst], a.grants);
  }

  /** The work messages will bring, after a data packet and the grants it led to. */
  lemma DataMesgWorks(cfg: Config, w: World, st: State, p: Pkt, a: Arrived, j: InMsg)
    requires NetOk(cfg, w, FlowOf(st)) && p in st.net && !p.Grant? && p.dst in st.rx && p.dst in st.tx
    requires MesgsOf(a.rx) == ApplyGrants(Receives(FlowOf(st), p, j).mesgs[p.dst], a.grants)
    requires a.complete == (j.toReceive == 0)
    ensures var e := EmitAll(Logged(st, p, a.complete).(rx := st.rx[p.dst := a.rx]), p.dst, a.grants);
      && p.m in w && w[p.m].dst == p.dst && HostsOk(w, FlowOf(e))
      && Total(MesgWorks(cfg, w, FlowOf(e))) == Total(MesgWorks(cfg, w, FlowOf(st))) - MesgWork(cfg, w, FlowOf(st), p.m)
  {
    var e := EmitAll(Logged(st, p, a.complete).(rx := st.rx[p.dst := a.rx]), p.dst, a.grants);
    DataHosts(w, st, p, a);
    DataMesgs(st, p, a, j);
    DataNetWorks(cfg, w, FlowOf(st), FlowOf(e), p, j, a.grants);
  }

  lemma DataHosts(w: World, st: State, p: Pkt, a: Arrived)
    requires HostsOk(w, FlowOf(st)) && p.dst in st.rx && p.dst in st.tx
    ensures HostsOk(w, FlowOf(EmitAll(Logged(st, p, a.complete).(rx := st.rx[p.dst := a.rx]), p.dst, a.grants)))
  {
    HostsKept(w, st, EmitAll(Logged(st, p, a.complete).(rx := st.rx[p.dst := a.rx]), p.dst, a.grants));
  }

  lemma DataNetWorks(cfg: Config, w: World, f: Net, g: Net, p: Pkt, j: InMsg, gs: seq<Pkt>)
    requires NetOk(cfg, w, f) && p in f.net && !p.Grant? && p.dst in f.mesgs && HostsOk(w, g)
    requires var r := Receives(f, p, j);
      g.todo == r.todo && g.delivered == r.delivered && g.mesgs == r.mesgs[p.dst := ApplyGrants(r.mesgs[p.dst], gs)]
    ensures p.m in w && w[p.m].dst == p.dst
    ensures Total(MesgWorks(cfg, w, g)) == Total(MesgWorks(cfg, w, f)) - MesgWork(cfg, w, f, p.m)
  {
    DataPhase(cfg, w, f, p);
    ReceivesMesgWorks(cfg, w, f, p, j);
    GrantedMesgWorks(cfg, w, Receives(f, p, j), g, p.dst, gs);
  }

  lemma DataMesgs(st: State, p: Pkt, a: Arrived, j: InMsg)
    requires p.dst in st.rx && p.dst in st.tx && a.complete == (j.toReceive == 0)
    requires var r := Receives(FlowOf(st), p, j); MesgsOf(a.rx) == ApplyGrants(r.mesgs[p.dst], a.grants)
    ensures var r := Receives(FlowOf(st), p, j);
            var g := FlowOf(EmitAll(Logged(st, p, a.complete).(rx := st.rx[p.dst := a.rx]), p.dst, a.grants));
      && g.todo == r.todo && g.delivered == r.delivered
      && g.mesgs == r.mesgs[p.dst := ApplyGrants(r.mesgs[p.dst], a.grants)]
  {
    var r := Receives(FlowOf(st), p, j);
    MesgsAt(st, p.dst, a.rx, r.mesgs);
  }

  lemma MesgsAt(st: State, d: Addr, rx: Rx, mesgs: map<Addr, Mesgs>)
    requires d in st.rx && mesgs.Keys == st.rx.Keys
    requires forall e :: e in st.rx && e != d ==> mesgs[e] == MesgsOf(st.rx[e])
    ensures FlowOf(st.(rx := st.rx[d := rx])).mesgs == mesgs[d := MesgsOf(rx)]
  {
  }

  lemma LoggedLoads(w: World, st: State, p: Pkt, complete: bool)
    requires p in st.net && !p.Grant? && HostsOk(w, FlowOf(st))
    ensures var s := Logged(st, p, complete);
      && HostsOk(w, FlowOf(s)) && TxLoads(s) == TxLoads(st) && RxLoads(s) == RxLoads(st)
      && Sum(s.net, Load) + 1 == Sum(st.net, Load)
  {
    SumTake(st.net, p);
    assert Sum(st.net, Load) == Weigh(Load, p) + Sum(st.net - multiset{p}, Load);
    HostsKept(w, st, Logged(st, p, complete));
  }

  lemma DataWork(cfg: Config, w: World, st: State, p: Pkt)
    requires NetOk(cfg, w, FlowOf(st)) && p in st.net && !p.Grant? && ArrivalAsserts(cfg, w, st, p)
    requires st.rx[p.dst].addr == p.dst
    ensures var e := EmitAll(TakenIn(cfg, w, st, p), p.dst, ArrivedAt(cfg, w, st, p).grants);
      HostsOk(w, FlowOf(e)) && Work(cfg, w, e) < Work(cfg, w, st)
  {
    var a, rx := ArrivedAt(cfg, w, st, p), st.rx[p.dst];
    var j := DataMoves(cfg, w, st, p);
    DataMesgWorks(cfg, w, st, p, a, j);
    DataMesgWork(cfg, w, FlowOf(st), p, rx);
    ArrivalWork(cfg, Own(w, p.dst), rx, p);
    LoggedLoads(w, st, p, a.complete);
    ReceiverStep(cfg, w, Logged(st, p, a.complete), p.dst, a.rx, a.grants);
  }

  /** Every step uses up work. */
  lemma StepWork(cfg: Config, w: World, st: State, e: Event)
    requires Inv(cfg, w, st) && Enabled(cfg, w, st, e) && Asserts(cfg, w, st, e)
    ensures HostsOk(w, FlowOf(st)) && HostsOk(w, FlowOf(Next(cfg, w, st, e)))
    ensures Work(cfg, w, Next(cfg, w, st, e)) < Work(cfg, w, st)
  {
    match e
    case AppSend(m, next) =>
      AcceptedOk(cfg, w, st, m);
      AcceptedWork(cfg, w, st, m);
      KickWork(cfg, w, Accepted(cfg, w, st, m), m.src, next);
    case SendTimer(h, next) => SendTimerWork(cfg, w, st, h, next);
    case Arrive(p, next) =>
      if p.Grant? {
        AnsweredOk(cfg, w, st, p);
        AnsweredWork(cfg, w, st, p);
        KickWork(cfg, w, Answered(st, p), p.m.src, next);
      } else {
        SchedulerAt(cfg, w, st, p.dst);
        DataWork(cfg, w, st, p);
      }
    case GrantTimer(d, s) => GrantTimerWork(cfg, w, st, d, s);
  }

  // ---- never stuck ----

  /** Nothing to hand over, nothing in the network, no timer running. */
  ghost predicate Quiet(st: State) {
    && st.todo == {} && st.net == multiset{}
    && (forall h :: h in st.tx ==> !st.tx[h].busy)
    && (forall d, s :: d in st.rx && s in st.rx[d].sx ==> !st.rx[d].sx[s].timer)
  }

  lemma QuietBag(cfg: Config, w: World, st: State, m: MsgRef)
    requires Inv(cfg, w, st) && Quiet(st) && m in w
    ensures HostsOk(w, FlowOf(st)) && Bag(ViewOf(w, FlowOf(st), m)) == multiset{}
  {
    assert IdleOk(st.tx[m.src]);
    assert IdleOk(st.tx[w[m].dst]);
    var v := ViewOf(w, FlowOf(st), m);
    assert v.queued == Queued(FlowOf(st), m) == multiset{};
    assert v.flying == Flying(w, FlowOf(st), m) == multiset{};
  }

  /** When all is quiet a message its receiver knows has nothing in flight. */
  lemma QuietKnown(cfg: Config, w: World, st: State, m: MsgRef)
    requires Inv(cfg, w, st) && Quiet(st) && m in w
    ensures HostsOk(w, FlowOf(st))
    ensures var v := ViewOf(w, FlowOf(st), m);
      if v.known.Some? then v.known.value.inFlight == 0 && v.known.value.toGrant > 0 else v.delivered == 1
  {
    var v := ViewOf(w, FlowOf(st), m);
    assert ViewOk(cfg, m, w[m], v);
    QuietBag(cfg, w, st, m);
    assert !v.todo;
    QuietView(cfg, m, w[m], v);
  }

  lemma QuietView(cfg: Config, m: MsgRef, spec: Spec, v: View)
    requires cfg.Valid() && ValidSpec(spec) && ViewOk(cfg, m, spec, v) && !v.todo && Bag(v) == multiset{}
    ensures if v.known.Some? then v.known.value.inFlight == 0 && v.known.value.toGrant > 0 else v.delivered == 1
  {
    SumNone(multiset{}, WireBytes(m));
    SumNone(multiset{}, UBytes(m));
    SumNone(multiset{}, SBytes(m));
    assert Plan(cfg, m, spec)[0] in multiset(Plan(cfg, m, spec));
  }

  /** The first listed sender has its first message at the limit or its timer running. */
  lemma FirstServed(cfg: Config, w: World, st: State, d: Addr, s: Addr, id: nat) returns (t: Addr)
    requires Inv(cfg, w, st) && d in st.rx && s in st.rx[d].sx
    requires id in st.rx[d].sx[s].incomplete && st.rx[d].sx[s].incomplete[id].toGrant > 0
    ensures t in st.rx[d].sx
    ensures var x := st.rx[d].sx[t];
      x.queue != [] && x.queue[0] in x.incomplete && (x.timer || Top(x).inFlight >= cfg.maxOutstanding)
  {
    var rx := st.rx[d];
    assert SchedulerOk(cfg, w, d, rx);
    assert SxOk(rx.sx[s], s, Own(w, d));
    assert NeedsGrants(rx, s);
    t := rx.list[0];
    Listed(cfg, Own(w, d), rx, {}, 0);
    assert Served(cfg, rx.sx[t]);
  }

  /** If all is quiet everything has been delivered. */
  lemma QuietMeansDone(cfg: Config, w: World, st: State, m: MsgRef)
    requires Inv(cfg, w, st) && Quiet(st) && m in w
    ensures st.delivered[m] == 1
  {
    var f := FlowOf(st);
    QuietKnown(cfg, w, st, m);
    var v := ViewOf(w, f, m);
    assert v.delivered == st.delivered[m];
    assert v.known == KnownIn(f.mesgs[w[m].dst], m);
    if v.known.Some? {
      var d := w[m].dst;
      assert f.mesgs[d] == MesgsOf(st.rx[d]);
      var t := FirstServed(cfg, w, st, d, m.src, m.id);
      TopIsIdle(cfg, w, st, d, t);
    }
  }

  lemma TopIsIdle(cfg: Config, w: World, st: State, d: Addr, t: Addr)
    requires Inv(cfg, w, st) && Quiet(st) && d in st.rx && t in st.rx[d].sx
    requires st.rx[d].sx[t].queue != [] && st.rx[d].sx[t].queue[0] in st.rx[d].sx[t].incomplete
    ensures Top(st.rx[d].sx[t]).inFlight == 0
  {
    var f, x := FlowOf(st), st.rx[d].sx[t];
    assert f.mesgs[d] == MesgsOf(st.rx[d]);
    assert RxPlaced(w, d, f.mesgs[d]);
    var n := MsgRef(t, x.queue[0]);
    assert t in f.mesgs[d] && n.id in f.mesgs[d][t];
    QuietKnown(cfg, w, st, n);
    assert ViewOf(w, f, n).known == KnownIn(f.mesgs[d], n);
  }

  /** While some message is undelivered, something can happen. */
  lemma NeverStuck(cfg: Config, w: World, st: State, m: MsgRef) returns (e: Event)
    requires Inv(cfg, w, st) && m in w && st.delivered[m] == 0
    ensures Enabled(cfg, w, st, e)
  {
    if Quiet(st) {
      QuietMeansDone(cfg, w, st, m);
      assert false;
    }
    e := SomeEvent(cfg, w, st);
  }

  lemma SomeEvent(cfg: Config, w: World, st: State) returns (e: Event)
    requires Inv(cfg, w, st) && !Quiet(st)
    ensures Enabled(cfg, w, st, e)
  {
    if n :| n in st.todo {
      AcceptedOk(cfg, w, st, n);
      e := AppSend(n, Plan(cfg, n, w[n])[0]);
      assert Plan(cfg, n, w[n])[0] in multiset(Plan(cfg, n, w[n]));
    } else if p :| p in st.net {
      e := ArriveEvent(cfg, w, st, p);
    } else if h :| h in st.tx && st.tx[h].busy {
      e := LinkEvent(cfg, w, st, h);
    } else {
      var d, s :| d in st.rx && s in st.rx[d].sx && st.rx[d].sx[s].timer;
      e := GrantTimer(d, s);
    }
  }

  lemma ArriveEvent(cfg: Config, w: World, st: State, p: Pkt) returns (e: Event)
    requires Inv(cfg, w, st) && p in st.net
    ensures Enabled(cfg, w, st, e)
  {
    if p.Grant? {
      AnsweredOk(cfg, w, st, p);
      e := Arrive(p, Answer(st.tx[p.m.src].out[p.m.id], p));
    } else {
      e := Arrive(p, p);
    }
  }

  lemma LinkEvent(cfg: Config, w: World, st: State, h: Addr) returns (e: Event)
    requires h in st.tx && st.tx[h].busy
    ensures Enabled(cfg, w, st, e)
  {
    if g :| g in st.tx[h].grantQ {
      e := SendTimer(h, g);
    } else if p :| p in st.tx[h].queued {
      assert st.tx[h].grantQ == multiset{};
      e := SendTimer(h, p);
    } else {
      assert st.tx[h].grantQ == multiset{} && st.tx[h].queued == multiset{};
      e := SendTimer(h, Grant(MsgRef(h, 0), h, 0, 0, 0));
    }
  }
}

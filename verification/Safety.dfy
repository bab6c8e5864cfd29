/** Safety of the protocol over all runs: the invariant holds initially and is kept by
    every step, and no assertion of the transport fails in any reachable state. */
module Safety {
  import opened HomaTypes
  import opened Inbound
  import opened SenderState
  import opened Receiver
  import opened ReceiverEvents
  import opened ReceiverEffects
  import opened Sender
  import opened Message
  import opened Flow
  import opened Protocol

  /** The moves of a sequence of grants. */
  ghost function IssueAll(f: Net, d: Addr, gs: seq<Pkt>): Net
    requires d in f.tx && d in f.mesgs
    decreases |gs|
  {
    if gs == [] then f else IssueAll(Issues(f, d, gs[0]), d, gs[1..])
  }

  lemma {:induction false} IssueAllOk(cfg: Config, w: World, f: Net, d: Addr, gs: seq<Pkt>)
    requires NetOk(cfg, w, f) && d in f.tx && d in f.mesgs && GrantsFit(cfg, d, f.mesgs[d], gs)
    ensures NetOk(cfg, w, IssueAll(f, d, gs))
    decreases |gs|
  {
    if gs != [] {
      IssuesOk(cfg, w, f, d, gs[0]);
      IssueAllOk(cfg, w, Issues(f, d, gs[0]), d, gs[1..]);
    }
  }

  ghost function Granting(f: Net, d: Addr, l: Link, gs: seq<Pkt>): Net
    requires d in f.mesgs
  {
    f.(tx := f.tx[d := l.tx], net := l.net, mesgs := f.mesgs[d := ApplyGrants(f.mesgs[d], gs)])
  }

  lemma {:induction false} IssueAllIs(f: Net, d: Addr, gs: seq<Pkt>)
    requires d in f.tx && d in f.mesgs
    ensures IssueAll(f, d, gs) == Granting(f, d, EmitSeq(Link(f.tx[d], f.net), gs), gs)
    decreases |gs|
  {
    if gs == [] {
      assert f.mesgs[d := f.mesgs[d]] == f.mesgs && f.tx[d := f.tx[d]] == f.tx;
    } else {
      IssueAllIs(Issues(f, d, gs[0]), d, gs[1..]);
      GrantingAfter(f, Issues(f, d, gs[0]), d, EmitSeq(Link(f.tx[d], f.net), gs), gs);
    }
  }

  lemma GrantingAfter(f: Net, g: Net, d: Addr, l: Link, gs: seq<Pkt>)
    requires d in f.tx && d in f.mesgs && gs != [] && g == Issues(f, d, gs[0])
    ensures Granting(g, d, l, gs[1..]) == Granting(f, d, l, gs)
  {
    assert g.tx[d := l.tx] == f.tx[d := l.tx];
    assert g.mesgs[d := ApplyGrants(f.mesgs[d], gs)] == f.mesgs[d := ApplyGrants(f.mesgs[d], gs)];
  }

  /** An event at receiver `d` that leaves it in state `rx` after granting `gs`. */
  lemma FlowGranted(cfg: Config, w: World, st: State, f: Net, d: Addr, rx: Rx, gs: seq<Pkt>)
    requires NetOk(cfg, w, f) && d in f.tx && d in f.mesgs && d in st.rx
    requires f == FlowOf(st).(mesgs := f.mesgs) && f.mesgs.Keys == st.rx.Keys
    requires forall e :: e in st.rx && e != d ==> f.mesgs[e] == MesgsOf(st.rx[e])
    requires GrantsFit(cfg, d, f.mesgs[d], gs) && MesgsOf(rx) == ApplyGrants(f.mesgs[d], gs)
    ensures NetOk(cfg, w, FlowOf(EmitAll(st.(rx := st.rx[d := rx]), d, gs)))
  {
    IssueAllOk(cfg, w, f, d, gs);
    IssueAllIs(f, d, gs);
    FlowMesgs(st, f, d, rx, gs);
  }

  lemma FlowMesgs(st: State, f: Net, d: Addr, rx: Rx, gs: seq<Pkt>)
    requires d in f.tx && d in f.mesgs && d in st.rx
    requires f == FlowOf(st).(mesgs := f.mesgs) && f.mesgs.Keys == st.rx.Keys
    requires forall e :: e in st.rx && e != d ==> f.mesgs[e] == MesgsOf(st.rx[e])
    requires MesgsOf(rx) == ApplyGrants(f.mesgs[d], gs)
    ensures FlowOf(EmitAll(st.(rx := st.rx[d := rx]), d, gs)) == Granting(f, d, EmitSeq(Link(f.tx[d], f.net), gs), gs)
  {
    var e := FlowOf(EmitAll(st.(rx := st.rx[d := rx]), d, gs));
    assert e.mesgs == f.mesgs[d := ApplyGrants(f.mesgs[d], gs)];
  }

  lemma {:induction false} EmitSeqIdle(l: Link, gs: seq<Pkt>)
    requires IdleOk(l.tx)
    ensures IdleOk(EmitSeq(l, gs).tx)
    decreases |gs|
  {
    if gs != [] {
      EmitSeqIdle(Link(Emit(l.tx, gs[0]), l.net + Emitted(l.tx, gs[0])), gs[1..]);
    }
  }

  /** What the receiver looks up is what the flow of messages says it has. */
  lemma LookupIs(cfg: Config, rx: Rx, p: Pkt)
    ensures p.m.id in SxFor(cfg, rx, p.m.src).incomplete <==> KnownIn(MesgsOf(rx), p.m).Some?
    ensures DataAsserts(MesgsOf(rx), p) ==> InboundAsserts(SxFor(cfg, rx, p.m.src), p)
    ensures KnownIn(MesgsOf(rx), p.m).Some? || p.Unsched? ==>
              Lookup(SxFor(cfg, rx, p.m.src), p) == LookupIn(MesgsOf(rx), p)
  {
  }

  lemma OwnHas(w: World, m: MsgRef)
    requires DistinctKeys(w) && m in w
    ensures IdentFor(m, w[m]) in Own(w, w[m].dst) && Own(w, w[m].dst)[IdentFor(m, w[m])] == m.src
  {
  }

  /** A live message is one its receiver's order can tell from other senders' messages. */
  lemma SeenMesgOk(cfg: Config, w: World, m: MsgRef, v: View)
    requires DistinctKeys(w) && m in w && ValidSpec(w[m]) && cfg.Valid() && LiveOk(cfg, m, w[m], v)
    ensures MesgOk(Seen(cfg, m, w[m], v), m.id, m.src, Own(w, w[m].dst))
  {
    OwnHas(w, m);
    SeenSize(cfg, m, w[m], v);
    assert IdentOf(Seen(cfg, m, w[m], v)) == IdentFor(m, w[m]);
  }

  lemma SchedulerAt(cfg: Config, w: World, st: State, d: Addr)
    requires Inv(cfg, w, st) && d in st.rx
    ensures SchedulerOk(cfg, w, d, st.rx[d])
  {
  }

  lemma WelcomeIf(cfg: Config, own: map<Ident, Addr>, rx: Rx, p: Pkt)
    requires DataAsserts(MesgsOf(rx), p) && MesgOk(LookupIn(MesgsOf(rx), p), p.m.id, p.m.src, own)
    ensures Welcome(cfg, own, rx, p)
  {
    LookupIs(cfg, rx, p);
  }

  /** A data packet is welcome: the assertions on it hold and its sender can be ranked. */
  lemma DataWelcome(cfg: Config, w: World, st: State, p: Pkt)
    requires DistinctKeys(w) && NetOk(cfg, w, FlowOf(st)) && p in st.net && !p.Grant?
    ensures p.dst in st.rx && p.dst in st.tx && DataAsserts(MesgsOf(st.rx[p.dst]), p)
    ensures Welcome(cfg, Own(w, p.dst), st.rx[p.dst], p)
  {
    var f := FlowOf(st);
    ReceivesOk(cfg, w, f, p);
    assert f.mesgs[p.dst] == MesgsOf(st.rx[p.dst]);
    LookupSeen(cfg, w, f, p);
    FlyingHere(cfg, w, f, p);
    SeenMesgOk(cfg, w, p.m, ViewOf(w, f, p.m));
    WelcomeIf(cfg, Own(w, p.dst), st.rx[p.dst], p);
  }

  lemma HandledMesgs(cfg: Config, rx: Rx, p: Pkt)
    requires InboundAsserts(SxFor(cfg, rx, p.m.src), p) && DataAsserts(MesgsOf(rx), p)
    ensures var ms, j, h := MesgsOf(rx), Fill(LookupIn(MesgsOf(rx), p), p), HandleInbound(SxFor(cfg, rx, p.m.src), p);
      && h.sx.incomplete == WithMesg(IncompleteOf(ms, p.m.src), p.m.id, j)
      && h.complete == (j.toReceive == 0)
  {
    LookupIs(cfg, rx, p);
    assert SxFor(cfg, rx, p.m.src).incomplete == IncompleteOf(MesgsOf(rx), p.m.src);
  }

  /** What an arrival does to the receiver's messages: the packet is taken in, and
      allowed grants are issued one after the other. */
  lemma ArrivalMesgs(cfg: Config, own: map<Ident, Addr>, rx: Rx, p: Pkt)
    requires cfg.Valid() && RxOk(cfg, own, rx, {}) && Welcome(cfg, own, rx, p) && DataAsserts(MesgsOf(rx), p)
    ensures var a, ms, j := Arrival(cfg, own, rx, p), MesgsOf(rx), Fill(LookupIn(MesgsOf(rx), p), p);
            var ms' := ms[p.m.src := WithMesg(IncompleteOf(ms, p.m.src), p.m.id, j)];
      && GrantsFit(cfg, rx.addr, ms', a.grants)
      && MesgsOf(a.rx) == ApplyGrants(ms', a.grants)
      && a.complete == (j.toReceive == 0)
  {
    AfterPktOk(cfg, own, rx, p);
    ReactEffect(cfg, own, AfterPkt(cfg, rx, p), p.m.src);
    AfterPktMesgs(cfg, rx, p);
    AfterPktFrame(cfg, rx, p);
    HandledMesgs(cfg, rx, p);
  }

  /** The state after a data packet but for the receiver's answer. */
  ghost function Logged(st: State, p: Pkt, complete: bool): State {
    st.(net := st.net - multiset{p}, rcvd := st.rcvd + multiset{p},
        delivered := st.delivered + if complete then multiset{p.m} else multiset{})
  }

  lemma LoggedFlow(st: State, p: Pkt, j: InMsg, complete: bool)
    requires p.dst in st.rx && complete == (j.toReceive == 0)
    ensures var r, st0 := Receives(FlowOf(st), p, j), Logged(st, p, complete);
      && r == FlowOf(st0).(mesgs := r.mesgs) && r.mesgs.Keys == st0.rx.Keys && st0.rx == st.rx && st0.tx == st.tx
      && p.dst in r.mesgs
      && forall e :: e in st.rx && e != p.dst ==> r.mesgs[e] == MesgsOf(st.rx[e])
  {
  }

  lemma ReceivesFlow(cfg: Config, w: World, st: State, p: Pkt, a: Arrived)
    requires NetOk(cfg, w, FlowOf(st)) && p in st.net && !p.Grant? && p.dst in st.rx && p.dst in st.tx
    requires DataAsserts(MesgsOf(st.rx[p.dst]), p)
    requires var ms, j := MesgsOf(st.rx[p.dst]), Fill(LookupIn(MesgsOf(st.rx[p.dst]), p), p);
             var ms' := ms[p.m.src := WithMesg(IncompleteOf(ms, p.m.src), p.m.id, j)];
      && GrantsFit(cfg, p.dst, ms', a.grants)
      && MesgsOf(a.rx) == ApplyGrants(ms', a.grants)
      && a.complete == (j.toReceive == 0)
    ensures NetOk(cfg, w, FlowOf(EmitAll(Logged(st, p, a.complete).(rx := st.rx[p.dst := a.rx]), p.dst, a.grants)))
  {
    var f := FlowOf(st);
    assert f.mesgs[p.dst] == MesgsOf(st.rx[p.dst]);
    ReceivesOk(cfg, w, f, p);
    var j := Fill(LookupIn(f.mesgs[p.dst], p), p);
    LoggedFlow(st, p, j, a.complete);
    FlowGranted(cfg, w, Logged(st, p, a.complete), Receives(f, p, j), p.dst, a.rx, a.grants);
  }

  lemma DataFlow(cfg: Config, w: World, st: State, p: Pkt)
    requires NetOk(cfg, w, FlowOf(st)) && p in st.net && !p.Grant? && ArrivalAsserts(cfg, w, st, p)
    requires SchedulerOk(cfg, w, p.dst, st.rx[p.dst])
    ensures NetOk(cfg, w, FlowOf(EmitAll(TakenIn(cfg, w, st, p), p.dst, ArrivedAt(cfg, w, st, p).grants)))
  {
    DataWelcome(cfg, w, st, p);
    ArrivalMesgs(cfg, Own(w, p.dst), st.rx[p.dst], p);
    ReceivesFlow(cfg, w, st, p, ArrivedAt(cfg, w, st, p));
    assert TakenIn(cfg, w, st, p)
        == Logged(st, p, ArrivedAt(cfg, w, st, p).complete).(rx := st.rx[p.dst := ArrivedAt(cfg, w, st, p).rx]);
  }

  /** Only host `h` has a new sender or receiver state. */
  ghost predicate OnlyAt(st: State, st': State, h: Addr) {
    && st'.tx.Keys == st.tx.Keys && st'.rx.Keys == st.rx.Keys
    && forall k :: k != h ==> (k in st.tx ==> st'.tx[k] == st.tx[k]) && (k in st.rx ==> st'.rx[k] == st.rx[k])
  }

  lemma InvAt(cfg: Config, w: World, st: State, st': State, h: Addr)
    requires Inv(cfg, w, st) && NetOk(cfg, w, FlowOf(st')) && OnlyAt(st, st', h)
    requires h in st'.tx && IdleOk(st'.tx[h])
    requires h in st'.rx ==> SchedulerOk(cfg, w, h, st'.rx[h])
    ensures Inv(cfg, w, st')
  {
    forall d | d in st'.rx
      ensures SchedulerOk(cfg, w, d, st'.rx[d])
    {
      if d != h { assert SchedulerOk(cfg, w, d, st.rx[d]); }
    }
    forall k | k in st'.tx
      ensures IdleOk(st'.tx[k])
    {
      if k != h { assert IdleOk(st.tx[k]); }
    }
  }

  /** A queued packet passes the assertions on its way out. */
  lemma TransmitPasses(cfg: Config, w: World, st: State, h: Addr, p: Pkt)
    requires NetOk(cfg, w, FlowOf(st)) && h in st.tx && p in st.tx[h].queued
    ensures TransmitAsserts(st.tx[h], p)
    ensures NetOk(cfg, w, FlowOf(WithTx(st, h, Transmit(st.tx[h], p)).(net := st.net + multiset{p})))
  {
    SendsOk(cfg, w, FlowOf(st), h, p);
    assert FlowOf(WithTx(st, h, Transmit(st.tx[h], p)).(net := st.net + multiset{p})) == Sends(FlowOf(st), h, p);
  }

  lemma KickOk(cfg: Config, w: World, st: State, h: Addr, next: Pkt)
    requires NetOk(cfg, w, FlowOf(st)) && h in st.tx
    requires !st.tx[h].busy ==> next in st.tx[h].queued && st.tx[h].grantQ == multiset{}
    ensures KickAsserts(st, h, next)
    ensures NetOk(cfg, w, FlowOf(Kick(st, h, next)))
    ensures OnlyAt(st, Kick(st, h, next), h) && Kick(st, h, next).tx[h].busy && Kick(st, h, next).rx == st.rx
  {
    if !st.tx[h].busy {
      TransmitPasses(cfg, w, st, h, next);
    }
  }

  lemma AcceptedOk(cfg: Config, w: World, st: State, m: MsgRef)
    requires NetOk(cfg, w, FlowOf(st)) && m in st.todo
    ensures m in w && m.src in st.tx && ValidSpec(w[m]) && m.id !in st.tx[m.src].out
    ensures NetOk(cfg, w, FlowOf(Accepted(cfg, w, st, m)))
  {
    AcceptsOk(cfg, w, FlowOf(st), m);
    assert FlowOf(Accepted(cfg, w, st, m)) == Accepts(cfg, w, FlowOf(st), m);
  }

  /** A host's sender has changed to that of `st1`, and an idle link takes a packet. */
  lemma KickedOk(cfg: Config, w: World, st: State, st1: State, h: Addr, next: Pkt)
    requires Inv(cfg, w, st) && NetOk(cfg, w, FlowOf(st1)) && OnlyAt(st, st1, h) && st1.rx == st.rx
    requires h in st.tx && st1.tx[h].grantQ == st.tx[h].grantQ && st1.tx[h].busy == st.tx[h].busy
    requires !st1.tx[h].busy ==> next in st1.tx[h].queued
    ensures !st.tx[h].busy ==> st.tx[h].queued == multiset{}
    ensures KickAsserts(st1, h, next) && Inv(cfg, w, Kick(st1, h, next))
  {
    assert IdleOk(st.tx[h]);
    KickOk(cfg, w, st1, h, next);
    InvKicked(cfg, w, st, st1, h, next);
  }

  lemma AcceptedAt(cfg: Config, w: World, st: State, m: MsgRef)
    requires cfg.Valid() && m in w && ValidSpec(w[m]) && m.src in st.tx
    ensures var st1 := Accepted(cfg, w, st, m);
      && OnlyAt(st, st1, m.src) && st1.rx == st.rx
      && st1.tx[m.src].grantQ == st.tx[m.src].grantQ && st1.tx[m.src].busy == st.tx[m.src].busy
  {
  }

  lemma AnsweredAt(st: State, g: Pkt)
    requires GrantAsserts(st, g)
    ensures var st1 := Answered(st, g);
      && OnlyAt(st, st1, g.m.src) && st1.rx == st.rx
      && st1.tx[g.m.src].grantQ == st.tx[g.m.src].grantQ && st1.tx[g.m.src].busy == st.tx[g.m.src].busy
  {
  }

  lemma AppSendOk(cfg: Config, w: World, st: State, m: MsgRef, next: Pkt)
    requires Inv(cfg, w, st) && Enabled(cfg, w, st, AppSend(m, next))
    ensures Asserts(cfg, w, st, AppSend(m, next)) && Inv(cfg, w, Next(cfg, w, st, AppSend(m, next)))
  {
    AcceptedOk(cfg, w, st, m);
    AcceptedAt(cfg, w, st, m);
    KickedOk(cfg, w, st, Accepted(cfg, w, st, m), m.src, next);
  }

  lemma InvKicked(cfg: Config, w: World, st: State, st1: State, h: Addr, next: Pkt)
    requires Inv(cfg, w, st) && OnlyAt(st, st1, h) && st1.rx == st.rx && h in st.tx
    requires KickAsserts(st1, h, next) && NetOk(cfg, w, FlowOf(Kick(st1, h, next)))
    requires OnlyAt(st1, Kick(st1, h, next), h) && Kick(st1, h, next).tx[h].busy && Kick(st1, h, next).rx == st.rx
    ensures Inv(cfg, w, Kick(st1, h, next))
  {
    if h in st.rx { assert SchedulerOk(cfg, w, h, st.rx[h]); }
    InvAt(cfg, w, st, Kick(st1, h, next), h);
  }

  lemma AnsweredOk(cfg: Config, w: World, st: State, g: Pkt)
    requires NetOk(cfg, w, FlowOf(st)) && g in st.net && g.Grant?
    ensures GrantAsserts(st, g) && g.len <= st.tx[g.m.src].out[g.m.id].toSched
    ensures NetOk(cfg, w, FlowOf(Answered(st, g)))
  {
    AnswersOk(cfg, w, FlowOf(st), g);
    assert FlowOf(Answered(st, g)) == Answers(FlowOf(st), g);
  }

  lemma GrantArrivesOk(cfg: Config, w: World, st: State, g: Pkt, next: Pkt)
    requires Inv(cfg, w, st) && Enabled(cfg, w, st, Arrive(g, next)) && g.Grant?
    ensures Asserts(cfg, w, st, Arrive(g, next)) && Inv(cfg, w, Next(cfg, w, st, Arrive(g, next)))
  {
    AnsweredOk(cfg, w, st, g);
    AnsweredAt(st, g);
    KickedOk(cfg, w, st, Answered(st, g), g.m.src, next);
  }

  lemma LinkFreeOk(cfg: Config, w: World, st: State, h: Addr, next: Pkt)
    requires NetOk(cfg, w, FlowOf(st)) && Enabled(cfg, w, st, SendTimer(h, next))
    ensures Asserts(cfg, w, st, SendTimer(h, next))
    ensures NetOk(cfg, w, FlowOf(LinkFree(st, h, next)))
  {
    var f := FlowOf(st);
    if st.tx[h].grantQ != multiset{} {
      PopsOk(cfg, w, f, h, next);
      assert FlowOf(LinkFree(st, h, next)) == Pops(f, h, next);
    } else if st.tx[h].queued != multiset{} {
      TransmitPasses(cfg, w, st, h, next);
    } else {
      SetBusyOk(cfg, w, f, h, false);
      assert FlowOf(LinkFree(st, h, next)) == SetBusy(f, h, false);
    }
  }

  lemma LinkFreeAt(st: State, h: Addr, next: Pkt)
    requires h in st.tx && st.tx[h].busy
    requires st.tx[h].grantQ == multiset{} && st.tx[h].queued != multiset{} ==> TransmitAsserts(st.tx[h], next)
    ensures OnlyAt(st, LinkFree(st, h, next), h) && IdleOk(LinkFree(st, h, next).tx[h])
    ensures LinkFree(st, h, next).rx == st.rx
  {
  }

  lemma SendTimerOk(cfg: Config, w: World, st: State, h: Addr, next: Pkt)
    requires Inv(cfg, w, st) && Enabled(cfg, w, st, SendTimer(h, next))
    ensures Asserts(cfg, w, st, SendTimer(h, next)) && Inv(cfg, w, Next(cfg, w, st, SendTimer(h, next)))
  {
    LinkFreeOk(cfg, w, st, h, next);
    LinkFreeAt(st, h, next);
    if h in st.rx { assert SchedulerOk(cfg, w, h, st.rx[h]); }
    InvAt(cfg, w, st, LinkFree(st, h, next), h);
  }

  lemma ArrivalPasses(cfg: Config, w: World, st: State, p: Pkt)
    requires Inv(cfg, w, st) && p in st.net && !p.Grant?
    ensures ArrivalAsserts(cfg, w, st, p) && SchedulerOk(cfg, w, p.dst, st.rx[p.dst]) && IdleOk(st.tx[p.dst])
  {
    DataWelcome(cfg, w, st, p);
    assert SchedulerOk(cfg, w, p.dst, st.rx[p.dst]);
    assert IdleOk(st.tx[p.dst]);
  }

  lemma EmitAllAt(st: State, st1: State, d: Addr, rx: Rx, gs: seq<Pkt>)
    requires d in st.rx && d in st.tx && IdleOk(st.tx[d]) && st1.rx == st.rx[d := rx] && st1.tx == st.tx
    ensures var e := EmitAll(st1, d, gs); OnlyAt(st, e, d) && d in e.tx && d in e.rx && IdleOk(e.tx[d]) && e.rx[d] == rx
  {
    EmitSeqIdle(Link(st1.tx[d], st1.net), gs);
  }

  lemma DataArrivesOk(cfg: Config, w: World, st: State, p: Pkt, next: Pkt)
    requires Inv(cfg, w, st) && Enabled(cfg, w, st, Arrive(p, next)) && !p.Grant?
    ensures Asserts(cfg, w, st, Arrive(p, next)) && Inv(cfg, w, Next(cfg, w, st, Arrive(p, next)))
  {
    ArrivalPasses(cfg, w, st, p);
    DataFlow(cfg, w, st, p);
    ArrivalOk(cfg, Own(w, p.dst), st.rx[p.dst], p);
    var a := ArrivedAt(cfg, w, st, p);
    EmitAllAt(st, TakenIn(cfg, w, st, p), p.dst, a.rx, a.grants);
    InvAt(cfg, w, st, EmitAll(TakenIn(cfg, w, st, p), p.dst, a.grants), p.dst);
  }

  lemma TimerFlow(cfg: Config, w: World, st: State, d: Addr, s: Addr)
    requires NetOk(cfg, w, FlowOf(st)) && TimerAsserts(cfg, w, st, d, s) && st.rx[d].addr == d
    ensures var g := FiredAt(cfg, w, st, d, s); NetOk(cfg, w, FlowOf(EmitAll(st.(rx := st.rx[d := g.rx]), d, g.grants)))
  {
    var f, g := FlowOf(st), FiredAt(cfg, w, st, d, s);
    TimerEffect(cfg, Own(w, d), st.rx[d], s);
    assert f.mesgs[d] == MesgsOf(st.rx[d]);
    FlowGranted(cfg, w, st, f, d, g.rx, g.grants);
  }

  lemma TimerPasses(cfg: Config, w: World, st: State, d: Addr, s: Addr)
    requires Inv(cfg, w, st) && Enabled(cfg, w, st, GrantTimer(d, s))
    ensures TimerAsserts(cfg, w, st, d, s) && SchedulerOk(cfg, w, d, st.rx[d]) && IdleOk(st.tx[d])
  {
    assert SchedulerOk(cfg, w, d, st.rx[d]);
    assert d in FlowOf(st).mesgs;
    assert IdleOk(st.tx[d]);
  }

  lemma GrantTimerOk(cfg: Config, w: World, st: State, d: Addr, s: Addr)
    requires Inv(cfg, w, st) && Enabled(cfg, w, st, GrantTimer(d, s))
    ensures Asserts(cfg, w, st, GrantTimer(d, s)) && Inv(cfg, w, Next(cfg, w, st, GrantTimer(d, s)))
  {
    TimerPasses(cfg, w, st, d, s);
    TimerFlow(cfg, w, st, d, s);
    TimerFiresOk(cfg, Own(w, d), st.rx[d], s);
    var g := FiredAt(cfg, w, st, d, s);
    EmitAllAt(st, st.(rx := st.rx[d := g.rx]), d, g.rx, g.grants);
    InvAt(cfg, w, st, EmitAll(st.(rx := st.rx[d := g.rx]), d, g.grants), d);
  }

  /** Whatever may happen next, no assertion fails and the invariant holds again. */
  lemma StepOk(cfg: Config, w: World, st: State, e: Event)
    requires Inv(cfg, w, st) && Enabled(cfg, w, st, e)
    ensures Asserts(cfg, w, st, e) && Inv(cfg, w, Next(cfg, w, st, e))
  {
    match e
    case AppSend(m, next) => AppSendOk(cfg, w, st, m, next);
    case SendTimer(h, next) => SendTimerOk(cfg, w, st, h, next);
    case Arrive(p, next) =>
      if p.Grant? {
        GrantArrivesOk(cfg, w, st, p, next);
      } else {
        DataArrivesOk(cfg, w, st, p, next);
      }
    case GrantTimer(d, s) => GrantTimerOk(cfg, w, st, d, s);
  }
}

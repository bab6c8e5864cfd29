/** All hosts and the network as far as messages are concerned: what senders and receivers
    know of every message and where its packets and grants are.  Each move of a packet or
    a grant keeps every message in order. */
module Flow {
  import opened Wrappers
  import opened HomaTypes
  import opened Inbound
  import opened SenderState
  import opened Sender
  import opened ReceiverEffects
  import opened Message

  /** The messages applications hand over in the course of a run. */
  type World = map<MsgRef, Spec>

  datatype Net = Net(
    todo: set<MsgRef>,              // not handed over yet
    tx: map<Addr, Tx>,
    mesgs: map<Addr, Mesgs>,        // incomplete messages of every receiver
    net: multiset<Pkt>,             // packets and grants in the network
    rcvd: multiset<Pkt>,            // data packets that have arrived
    delivered: multiset<MsgRef>)    // messages given to applications

  /** The packets of one message. */
  ghost function Only(bag: multiset<Pkt>, m: MsgRef): multiset<Pkt>
    decreases |bag|
  {
    if bag == multiset{} then multiset{}
    else
      var p :| p in bag;
      var rest := Only(bag - multiset{p}, m);
      if p.m == m then rest + multiset{p} else rest
  }

  lemma {:induction false} OnlyCount(bag: multiset<Pkt>, m: MsgRef)
    ensures forall p :: Only(bag, m)[p] == if p.m == m then bag[p] else 0
    decreases |bag|
  {
    if bag != multiset{} {
      var p :| p in bag && Only(bag, m) == if p.m == m then Only(bag - multiset{p}, m) + multiset{p}
                                           else Only(bag - multiset{p}, m);
      OnlyCount(bag - multiset{p}, m);
    }
  }

  lemma OnlyHas(bag: multiset<Pkt>, p: Pkt)
    requires p in bag
    ensures p in Only(bag, p.m)
  {
    OnlyCount(bag, p.m);
  }

  lemma OnlyAdd(bag: multiset<Pkt>, p: Pkt, m: MsgRef)
    ensures Only(bag + multiset{p}, m) == if p.m == m then Only(bag, m) + multiset{p} else Only(bag, m)
  {
    OnlyCount(bag, m);
    OnlyCount(bag + multiset{p}, m);
  }

  lemma OnlyTake(bag: multiset<Pkt>, p: Pkt, m: MsgRef)
    ensures Only(bag - multiset{p}, m) == if p.m == m then Only(bag, m) - multiset{p} else Only(bag, m)
  {
    OnlyCount(bag, m);
    OnlyCount(bag - multiset{p}, m);
    CountsTaken(bag, p, m, Only(bag, m), Only(bag - multiset{p}, m));
  }

  lemma CountsTaken(bag: multiset<Pkt>, p: Pkt, m: MsgRef, a: multiset<Pkt>, b: multiset<Pkt>)
    requires forall q :: a[q] == if q.m == m then bag[q] else 0
    requires forall q :: b[q] == if q.m == m then (bag - multiset{p})[q] else 0
    ensures b == if p.m == m then a - multiset{p} else a
  {
  }

  lemma OnlyAll(bag: multiset<Pkt>, add: multiset<Pkt>, m: MsgRef)
    requires forall p :: p in add ==> p.m == m
    ensures Only(bag + add, m) == Only(bag, m) + add
  {
    OnlyCount(bag, m);
    OnlyCount(bag + add, m);
  }

  lemma OnlyOthers(bag: multiset<Pkt>, add: multiset<Pkt>, m: MsgRef)
    requires forall p :: p in add ==> p.m != m
    ensures Only(bag + add, m) == Only(bag, m)
  {
    OnlyCount(bag, m);
    OnlyCount(bag + add, m);
  }

  ghost function KnownIn(ms: Mesgs, m: MsgRef): Option<InMsg> {
    if m.src in ms && m.id in ms[m.src] then Some(ms[m.src][m.id]) else None
  }

  ghost function OutIn(tx: Tx, m: MsgRef): Option<OutMsg> {
    if m.id in tx.out then Some(tx.out[m.id]) else None
  }

  ghost predicate HostsOk(w: World, f: Net) {
    && f.tx.Keys == f.mesgs.Keys
    && forall m :: m in w ==> m.src in f.tx && w[m].dst in f.tx && ValidSpec(w[m])
  }

  ghost function Queued(f: Net, m: MsgRef): multiset<Pkt>
    requires m.src in f.tx
  {
    Only(f.tx[m.src].queued, m)
  }

  ghost function Flying(w: World, f: Net, m: MsgRef): multiset<Pkt>
    requires m in w && w[m].dst in f.tx
  {
    Only(f.net + f.tx[w[m].dst].grantQ, m)
  }

  ghost function ViewOf(w: World, f: Net, m: MsgRef): View
    requires HostsOk(w, f) && m in w
  {
    View(m in f.todo, f.delivered[m], OutIn(f.tx[m.src], m), KnownIn(f.mesgs[w[m].dst], m),
         Queued(f, m), Flying(w, f, m), Only(f.rcvd, m))
  }

  ghost predicate ViewsOk(cfg: Config, w: World, f: Net)
    requires cfg.Valid() && HostsOk(w, f)
  {
    forall m {:trigger ViewOk(cfg, m, w[m], ViewOf(w, f, m))} :: m in w ==> ViewOk(cfg, m, w[m], ViewOf(w, f, m))
  }

  /** Packets, grants and states are only where their message belongs. */
  ghost predicate TxPlaced(w: World, h: Addr, tx: Tx) {
    && (forall p :: p in tx.queued ==> p.m in w && p.m.src == h)
    && (forall p :: p in tx.grantQ ==> p.m in w && w[p.m].dst == h)
    && (forall id :: id in tx.out ==> MsgRef(h, id) in w)
  }

  ghost predicate RxPlaced(w: World, d: Addr, ms: Mesgs) {
    forall s, id :: s in ms && id in ms[s] ==> MsgRef(s, id) in w && w[MsgRef(s, id)].dst == d
  }

  ghost predicate Placed(w: World, f: Net) {
    && (forall h {:trigger TxPlaced(w, h, f.tx[h])} :: h in f.tx ==> TxPlaced(w, h, f.tx[h]))
    && (forall d {:trigger RxPlaced(w, d, f.mesgs[d])} :: d in f.mesgs ==> RxPlaced(w, d, f.mesgs[d]))
    && (forall p :: p in f.net ==> p.m in w)
    && f.todo <= w.Keys
    && (forall m :: m in f.delivered ==> m in w)
  }

  ghost predicate NetOk(cfg: Config, w: World, f: Net) {
    cfg.Valid() && HostsOk(w, f) && ViewsOk(cfg, w, f) && Placed(w, f)
  }

  /** Only message `m` is concerned by the change from `f` to `g`. */
  ghost predicate OthersSame(w: World, f: Net, g: Net, m: MsgRef)
    requires HostsOk(w, f) && HostsOk(w, g)
  {
    forall n {:trigger ViewOf(w, g, n)} :: n in w && n != m ==> ViewOf(w, g, n) == ViewOf(w, f, n)
  }

  lemma OneChanged(cfg: Config, w: World, f: Net, g: Net, m: MsgRef)
    requires cfg.Valid() && HostsOk(w, f) && HostsOk(w, g) && ViewsOk(cfg, w, f) && m in w
    requires OthersSame(w, f, g, m) && ViewOk(cfg, m, w[m], ViewOf(w, g, m))
    ensures ViewsOk(cfg, w, g)
  {
    forall n | n in w
      ensures ViewOk(cfg, n, w[n], ViewOf(w, g, n))
    {
      if n != m {
        assert ViewOk(cfg, n, w[n], ViewOf(w, f, n));
      }
    }
  }

  lemma ViewOut(w: World, f: Net, m: MsgRef)
    requires HostsOk(w, f) && m in w
    ensures m.src in f.tx && ViewOf(w, f, m).out == OutIn(f.tx[m.src], m)
  {
  }

  // ---- a data packet leaves its sender ----

  ghost function Sends(f: Net, h: Addr, p: Pkt): Net
    requires h in f.tx && p.m.id in f.tx[h].out
  {
    f.(tx := f.tx[h := Transmit(f.tx[h], p)], net := f.net + multiset{p})
  }

  lemma NetAdd(net: multiset<Pkt>, q: multiset<Pkt>, p: Pkt, m: MsgRef)
    ensures Only(net + multiset{p} + q, m) == if p.m == m then Only(net + q, m) + multiset{p} else Only(net + q, m)
  {
    assert net + multiset{p} + q == net + q + multiset{p};
    OnlyAdd(net + q, p, m);
  }

  lemma SendsQueued(f: Net, p: Pkt, n: MsgRef)
    requires p.m.src in f.tx && n.src in f.tx && p.m.id in f.tx[p.m.src].out
    ensures Queued(Sends(f, p.m.src, p), n) == if p.m == n then Queued(f, n) - multiset{p} else Queued(f, n)
  {
    OnlyTake(f.tx[p.m.src].queued, p, n);
  }

  lemma SendsFlying(w: World, f: Net, p: Pkt, n: MsgRef)
    requires p.m.src in f.tx && n in w && w[n].dst in f.tx && p.m.id in f.tx[p.m.src].out
    ensures Flying(w, Sends(f, p.m.src, p), n) == if p.m == n then Flying(w, f, n) + multiset{p} else Flying(w, f, n)
  {
    NetAdd(f.net, f.tx[w[n].dst].grantQ, p, n);
  }

  lemma SendsOut(f: Net, p: Pkt, n: MsgRef)
    requires p.m.src in f.tx && n.src in f.tx && p.m.id in f.tx[p.m.src].out
    ensures var g := Sends(f, p.m.src, p);
            var o := f.tx[p.m.src].out[p.m.id].(left := f.tx[p.m.src].out[p.m.id].left - p.len);
      OutIn(g.tx[n.src], n) == if p.m != n then OutIn(f.tx[n.src], n) else if o.left <= 0 then None else Some(o)
  {
  }

  /** The parts of a view that neither sending nor answering touches. */
  ghost predicate SameReceipt(v: View, v': View) {
    v'.todo == v.todo && v'.delivered == v.delivered && v'.known == v.known && v'.rcvd == v.rcvd
  }

  lemma SentView(v: View, v': View, o: OutMsg, p: Pkt)
    requires v.out == Some(o) && SameReceipt(v, v')
    requires v'.out == if o.(left := o.left - p.len).left <= 0 then None else Some(o.(left := o.left - p.len))
    requires v'.queued == v.queued - multiset{p} && v'.flying == v.flying + multiset{p}
    ensures v' == AfterTransmit(v, p)
  {
  }

  lemma SendsHosts(w: World, f: Net, p: Pkt)
    requires HostsOk(w, f) && p.m in w && p.m.id in f.tx[p.m.src].out
    ensures HostsOk(w, Sends(f, p.m.src, p))
  {
  }

  lemma SendsQueues(w: World, f: Net, p: Pkt)
    requires HostsOk(w, f) && p.m in w && p.m.id in f.tx[p.m.src].out
    requires HostsOk(w, Sends(f, p.m.src, p))
    ensures var v, v' := ViewOf(w, f, p.m), ViewOf(w, Sends(f, p.m.src, p), p.m);
      SameReceipt(v, v') && v'.queued == v.queued - multiset{p} && v'.flying == v.flying + multiset{p}
  {
    SendsQueued(f, p, p.m);
    SendsFlying(w, f, p, p.m);
  }

  lemma SendsView(w: World, f: Net, p: Pkt)
    requires HostsOk(w, f) && p.m in w && p.m.id in f.tx[p.m.src].out
    requires ViewOf(w, f, p.m).out == Some(f.tx[p.m.src].out[p.m.id])
    ensures HostsOk(w, Sends(f, p.m.src, p))
    ensures ViewOf(w, Sends(f, p.m.src, p), p.m) == AfterTransmit(ViewOf(w, f, p.m), p)
  {
    SendsHosts(w, f, p);
    SendsQueues(w, f, p);
    SendsOut(f, p, p.m);
    ViewOut(w, Sends(f, p.m.src, p), p.m);
    SentView(ViewOf(w, f, p.m), ViewOf(w, Sends(f, p.m.src, p), p.m), f.tx[p.m.src].out[p.m.id], p);
  }

  lemma SendsOther(w: World, f: Net, p: Pkt, n: MsgRef)
    requires HostsOk(w, f) && p.m.src in f.tx && p.m.id in f.tx[p.m.src].out && n in w && n != p.m
    ensures HostsOk(w, Sends(f, p.m.src, p))
    ensures ViewOf(w, Sends(f, p.m.src, p), n) == ViewOf(w, f, n)
  {
    SendsQueued(f, p, n);
    SendsFlying(w, f, p, n);
    SendsOut(f, p, n);
  }

  lemma SendsViews(cfg: Config, w: World, f: Net, p: Pkt)
    requires cfg.Valid() && HostsOk(w, f) && ViewsOk(cfg, w, f)
    requires p.m in w && p.m.id in f.tx[p.m.src].out && ViewOf(w, f, p.m).out.Some?
    requires LiveOk(cfg, p.m, w[p.m], AfterTransmit(ViewOf(w, f, p.m), p))
    ensures HostsOk(w, Sends(f, p.m.src, p)) && ViewsOk(cfg, w, Sends(f, p.m.src, p))
  {
    var g := Sends(f, p.m.src, p);
    ViewOut(w, f, p.m);
    SendsView(w, f, p);
    forall n | n in w && n != p.m
      ensures ViewOf(w, g, n) == ViewOf(w, f, n)
    {
      SendsOther(w, f, p, n);
    }
    OneChanged(cfg, w, f, g, p.m);
  }

  lemma QueuedHere(cfg: Config, w: World, f: Net, h: Addr, p: Pkt)
    requires NetOk(cfg, w, f) && h in f.tx && p in f.tx[h].queued
    ensures p.m in w && p.m.src == h
    ensures p in ViewOf(w, f, p.m).queued && LiveOk(cfg, p.m, w[p.m], ViewOf(w, f, p.m))
  {
    assert TxPlaced(w, h, f.tx[h]);
    OnlyHas(f.tx[h].queued, p);
    assert p in Queued(f, p.m);
    LiveHere(cfg, p.m, w[p.m], ViewOf(w, f, p.m), p);
  }

  /** Any queued data packet may leave: its message is there, and with its last packet
      nothing of the message is left at the sender. */
  lemma SendsOk(cfg: Config, w: World, f: Net, h: Addr, p: Pkt)
    requires NetOk(cfg, w, f) && h in f.tx && p in f.tx[h].queued
    ensures p.m in w && p.m.src == h && p.m.id in f.tx[h].out && f.tx[h].out[p.m.id].left >= p.len
    ensures f.tx[h].out[p.m.id].left == p.len ==> forall q :: q in f.tx[h].queued - multiset{p} ==> q.m != p.m
    ensures NetOk(cfg, w, Sends(f, h, p))
  {
    QueuedHere(cfg, w, f, h, p);
    TransmitView(cfg, p.m, w[p.m], ViewOf(w, f, p.m), p);
    SendsViews(cfg, w, f, p);
    if f.tx[h].out[p.m.id].left == p.len {
      LastOfMessage(f.tx[h].queued, p);
    }
    SendsPlaced(w, f, h, p);
  }

  lemma LastOfMessage(bag: multiset<Pkt>, p: Pkt)
    requires Only(bag, p.m) == multiset{p}
    ensures forall q :: q in bag - multiset{p} ==> q.m != p.m
  {
    OnlyCount(bag, p.m);
    forall q | q in bag - multiset{p}
      ensures q.m != p.m
    {
      assert multiset{p}[q] == if q.m == p.m then bag[q] else 0;
    }
  }

  /** A message some of whose packets are about is neither to come nor done. */
  lemma LiveHere(cfg: Config, m: MsgRef, spec: Spec, v: View, p: Pkt)
    requires cfg.Valid() && ValidSpec(spec) && ViewOk(cfg, m, spec, v) && p in Bag(v)
    ensures LiveOk(cfg, m, spec, v)
  {
    assert Bag(TODO) == multiset{};
  }

  lemma SendsPlaced(w: World, f: Net, h: Addr, p: Pkt)
    requires Placed(w, f) && h in f.tx && p in f.tx[h].queued && p.m.id in f.tx[h].out
    ensures Placed(w, Sends(f, h, p))
  {
    assert TxPlaced(w, h, f.tx[h]);
    assert TxPlaced(w, h, Transmit(f.tx[h], p));
    PlacedTx(w, f, h, Transmit(f.tx[h], p));
  }

  lemma PlacedTx(w: World, f: Net, h: Addr, x: Tx)
    requires Placed(w, f) && h in f.tx && TxPlaced(w, h, x)
    ensures Placed(w, f.(tx := f.tx[h := x]))
  {
    var g := f.(tx := f.tx[h := x]);
    forall k | k in g.tx
      ensures TxPlaced(w, k, g.tx[k])
    {
      if k != h { assert TxPlaced(w, k, f.tx[k]); }
    }
    forall d | d in g.mesgs
      ensures RxPlaced(w, d, g.mesgs[d])
    {
      assert RxPlaced(w, d, f.mesgs[d]);
    }
  }

  // ---- the application hands over a message ----

  ghost function Accepts(cfg: Config, w: World, f: Net, m: MsgRef): Net
    requires cfg.Valid() && m in w && ValidSpec(w[m]) && m.src in f.tx
  {
    f.(todo := f.todo - {m}, tx := f.tx[m.src := Accept(cfg, f.tx[m.src], m, w[m])])
  }

  lemma PlanIsOwn(cfg: Config, m: MsgRef, spec: Spec)
    requires cfg.Valid() && ValidSpec(spec)
    ensures forall p :: p in multiset(Plan(cfg, m, spec)) ==> p.m == m
  {
    PlanAllFit(cfg, m, spec);
  }

  lemma AcceptsQueued(cfg: Config, w: World, f: Net, m: MsgRef, n: MsgRef)
    requires cfg.Valid() && m in w && ValidSpec(w[m]) && m.src in f.tx && n.src in f.tx
    ensures Queued(Accepts(cfg, w, f, m), n)
         == if n == m then Queued(f, n) + multiset(Plan(cfg, m, w[m])) else Queued(f, n)
  {
    PlanIsOwn(cfg, m, w[m]);
    OnlyOneMore(f.tx[m.src].queued, multiset(Plan(cfg, m, w[m])), m, n);
  }

  lemma OnlyOneMore(bag: multiset<Pkt>, add: multiset<Pkt>, m: MsgRef, n: MsgRef)
    requires forall p :: p in add ==> p.m == m
    ensures Only(bag + add, n) == if n == m then Only(bag, n) + add else Only(bag, n)
  {
    if n == m {
      OnlyAll(bag, add, n);
    } else {
      OnlyOthers(bag, add, n);
    }
  }

  lemma AcceptsOther(cfg: Config, w: World, f: Net, m: MsgRef, n: MsgRef)
    requires cfg.Valid() && HostsOk(w, f) && m in w && n in w && n != m
    ensures HostsOk(w, Accepts(cfg, w, f, m))
    ensures ViewOf(w, Accepts(cfg, w, f, m), n) == ViewOf(w, f, n)
  {
    AcceptsQueued(cfg, w, f, m, n);
  }

  lemma AcceptsView(cfg: Config, w: World, f: Net, m: MsgRef)
    requires cfg.Valid() && HostsOk(w, f) && m in w && ViewOf(w, f, m) == TODO
    ensures HostsOk(w, Accepts(cfg, w, f, m))
    ensures ViewOf(w, Accepts(cfg, w, f, m), m)
         == View(false, 0, Some(NewOut(cfg, w[m])), None, multiset(Plan(cfg, m, w[m])), multiset{}, multiset{})
  {
    AcceptsQueued(cfg, w, f, m, m);
    var v := ViewOf(w, f, m);
    assert v.queued == Queued(f, m) && v.known == KnownIn(f.mesgs[w[m].dst], m);
  }

  lemma ToCome(cfg: Config, w: World, f: Net, m: MsgRef)
    requires NetOk(cfg, w, f) && m in f.todo
    ensures m in w && ViewOf(w, f, m) == TODO && m.id !in f.tx[m.src].out
  {
    assert ViewOk(cfg, m, w[m], ViewOf(w, f, m));
    assert ViewOf(w, f, m).out == OutIn(f.tx[m.src], m);
  }

  lemma AcceptsOk(cfg: Config, w: World, f: Net, m: MsgRef)
    requires NetOk(cfg, w, f) && m in f.todo
    ensures m in w && m.id !in f.tx[m.src].out
    ensures NetOk(cfg, w, Accepts(cfg, w, f, m))
  {
    ToCome(cfg, w, f, m);
    var g := Accepts(cfg, w, f, m);
    AcceptsView(cfg, w, f, m);
    AcceptView(cfg, m, w[m]);
    forall n | n in w && n != m
      ensures ViewOf(w, g, n) == ViewOf(w, f, n)
    {
      AcceptsOther(cfg, w, f, m, n);
    }
    OneChanged(cfg, w, f, g, m);
    AcceptsPlaced(cfg, w, f, m);
  }

  lemma AcceptsPlaced(cfg: Config, w: World, f: Net, m: MsgRef)
    requires cfg.Valid() && Placed(w, f) && m in w && ValidSpec(w[m]) && m.src in f.tx
    ensures Placed(w, Accepts(cfg, w, f, m))
  {
    PlanIsOwn(cfg, m, w[m]);
    assert TxPlaced(w, m.src, f.tx[m.src]);
    PlacedTx(w, f.(todo := f.todo - {m}), m.src, Accept(cfg, f.tx[m.src], m, w[m]));
  }

  // ---- a waiting grant leaves its receiver; the link timer stops ----

  ghost function Pops(f: Net, h: Addr, g: Pkt): Net
    requires h in f.tx
  {
    f.(tx := f.tx[h := f.tx[h].(grantQ := f.tx[h].grantQ - multiset{g}, busy := true)], net := f.net + multiset{g})
  }

  lemma PopsFlying(w: World, f: Net, h: Addr, g: Pkt, n: MsgRef)
    requires h in f.tx && n in w && w[n].dst in f.tx && g in f.tx[h].grantQ && g.m in w && w[g.m].dst == h
    ensures Flying(w, Pops(f, h, g), n) == Flying(w, f, n)
  {
    if w[n].dst == h {
      assert f.net + multiset{g} + (f.tx[h].grantQ - multiset{g}) == f.net + f.tx[h].grantQ;
    } else {
      NetAdd(f.net, f.tx[w[n].dst].grantQ, g, n);
    }
  }

  lemma PopsView(w: World, f: Net, h: Addr, g: Pkt, n: MsgRef)
    requires HostsOk(w, f) && h in f.tx && g in f.tx[h].grantQ && g.m in w && w[g.m].dst == h && n in w
    ensures HostsOk(w, Pops(f, h, g)) && ViewOf(w, Pops(f, h, g), n) == ViewOf(w, f, n)
  {
    PopsFlying(w, f, h, g, n);
    assert Queued(Pops(f, h, g), n) == Queued(f, n);
  }

  lemma PopsViews(cfg: Config, w: World, f: Net, h: Addr, g: Pkt)
    requires cfg.Valid() && HostsOk(w, f) && ViewsOk(cfg, w, f)
    requires h in f.tx && g in f.tx[h].grantQ && g.m in w && w[g.m].dst == h
    ensures HostsOk(w, Pops(f, h, g)) && ViewsOk(cfg, w, Pops(f, h, g))
  {
    var e := Pops(f, h, g);
    forall n | n in w
      ensures ViewOf(w, e, n) == ViewOf(w, f, n)
    {
      PopsView(w, f, h, g, n);
    }
    SameViews(cfg, w, f, e);
  }

  lemma PopsOk(cfg: Config, w: World, f: Net, h: Addr, g: Pkt)
    requires NetOk(cfg, w, f) && h in f.tx && g in f.tx[h].grantQ
    ensures NetOk(cfg, w, Pops(f, h, g))
  {
    assert TxPlaced(w, h, f.tx[h]);
    PopsViews(cfg, w, f, h, g);
    PlacedTx(w, f.(net := f.net + multiset{g}), h, Pops(f, h, g).tx[h]);
  }

  lemma SameViews(cfg: Config, w: World, f: Net, g: Net)
    requires cfg.Valid() && HostsOk(w, f) && HostsOk(w, g) && ViewsOk(cfg, w, f)
    requires forall n {:trigger ViewOf(w, g, n)} :: n in w ==> ViewOf(w, g, n) == ViewOf(w, f, n)
    ensures ViewsOk(cfg, w, g)
  {
    forall n | n in w
      ensures ViewOk(cfg, n, w[n], ViewOf(w, g, n))
    {
      assert ViewOk(cfg, n, w[n], ViewOf(w, f, n));
    }
  }

  ghost function SetBusy(f: Net, h: Addr, busy: bool): Net
    requires h in f.tx
  {
    f.(tx := f.tx[h := f.tx[h].(busy := busy)])
  }

  lemma SetBusyOk(cfg: Config, w: World, f: Net, h: Addr, busy: bool)
    requires NetOk(cfg, w, f) && h in f.tx
    ensures NetOk(cfg, w, SetBusy(f, h, busy))
  {
    assert TxPlaced(w, h, f.tx[h]);
    var e := SetBusy(f, h, busy);
    SameViews(cfg, w, f, e);
    PlacedTx(w, f, h, e.tx[h]);
  }

  // ---- a grant arrives at the sender of its message ----

  ghost function Answers(f: Net, g: Pkt): Net
    requires g.Grant? && g.m.src in f.tx && g.m.id in f.tx[g.m.src].out && f.tx[g.m.src].out[g.m.id].toSched >= 0
  {
    f.(tx := f.tx[g.m.src := TakeGrant(f.tx[g.m.src], g)], net := f.net - multiset{g})
  }

  lemma NetTake(net: multiset<Pkt>, q: multiset<Pkt>, p: Pkt, m: MsgRef)
    requires p in net
    ensures Only(net - multiset{p} + q, m) == if p.m == m then Only(net + q, m) - multiset{p} else Only(net + q, m)
  {
    assert net - multiset{p} + q == net + q - multiset{p};
    OnlyTake(net + q, p, m);
  }

  lemma AnswersFlying(w: World, f: Net, g: Pkt, n: MsgRef)
    requires g.Grant? && g.m.src in f.tx && g.m.id in f.tx[g.m.src].out && f.tx[g.m.src].out[g.m.id].toSched >= 0
    requires n in w && w[n].dst in f.tx && g in f.net
    ensures Flying(w, Answers(f, g), n) == if g.m == n then Flying(w, f, n) - multiset{g} else Flying(w, f, n)
  {
    NetTake(f.net, f.tx[w[n].dst].grantQ, g, n);
  }

  lemma AnswersQueued(f: Net, g: Pkt, n: MsgRef)
    requires g.Grant? && g.m.src in f.tx && g.m.id in f.tx[g.m.src].out && f.tx[g.m.src].out[g.m.id].toSched >= 0
    requires n.src in f.tx
    ensures Queued(Answers(f, g), n)
         == if g.m == n then Queued(f, n) + multiset{Answer(f.tx[g.m.src].out[g.m.id], g)} else Queued(f, n)
  {
    OnlyAdd(f.tx[g.m.src].queued, Answer(f.tx[g.m.src].out[g.m.id], g), n);
  }

  lemma AnswersOther(w: World, f: Net, g: Pkt, n: MsgRef)
    requires HostsOk(w, f) && g in f.net && n in w && n != g.m
    requires g.Grant? && g.m.src in f.tx && g.m.id in f.tx[g.m.src].out && f.tx[g.m.src].out[g.m.id].toSched >= 0
    ensures HostsOk(w, Answers(f, g))
    ensures ViewOf(w, Answers(f, g), n) == ViewOf(w, f, n)
  {
    AnswersFlying(w, f, g, n);
    AnswersQueued(f, g, n);
    assert OutIn(Answers(f, g).tx[n.src], n) == OutIn(f.tx[n.src], n);
  }

  lemma AnswersOut(f: Net, g: Pkt, o: OutMsg)
    requires g.Grant? && g.m.src in f.tx && g.m.id in f.tx[g.m.src].out && o == f.tx[g.m.src].out[g.m.id]
    requires o.toSched >= 0
    ensures g.m.src in Answers(f, g).tx
    ensures OutIn(Answers(f, g).tx[g.m.src], g.m) == Some(o.(toSched := o.toSched - Answer(o, g).len))
  {
  }

  lemma AnsweredIs(v: View, v': View, o: OutMsg, g: Pkt)
    requires g.Grant? && o.toSched >= 0 && v.out == Some(o) && SameReceipt(v, v')
    requires v'.out == Some(o.(toSched := o.toSched - Answer(o, g).len))
    requires v'.queued == v.queued + multiset{Answer(o, g)} && v'.flying == v.flying - multiset{g}
    ensures v' == AfterAnswered(v, g)
  {
  }

  lemma AnswersHosts(w: World, f: Net, g: Pkt)
    requires HostsOk(w, f) && g.m in w
    requires g.Grant? && g.m.id in f.tx[g.m.src].out && f.tx[g.m.src].out[g.m.id].toSched >= 0
    ensures HostsOk(w, Answers(f, g))
  {
  }

  lemma AnswersQueues(w: World, f: Net, g: Pkt, o: OutMsg)
    requires HostsOk(w, f) && g in f.net && g.m in w
    requires g.Grant? && g.m.id in f.tx[g.m.src].out && o == f.tx[g.m.src].out[g.m.id] && o.toSched >= 0
    requires HostsOk(w, Answers(f, g))
    ensures var v, v' := ViewOf(w, f, g.m), ViewOf(w, Answers(f, g), g.m);
      SameReceipt(v, v') && v'.queued == v.queued + multiset{Answer(o, g)} && v'.flying == v.flying - multiset{g}
  {
    AnswersFlying(w, f, g, g.m);
    AnswersQueued(f, g, g.m);
  }

  lemma AnswersView(w: World, f: Net, g: Pkt)
    requires HostsOk(w, f) && g in f.net && g.m in w
    requires g.Grant? && g.m.id in f.tx[g.m.src].out && f.tx[g.m.src].out[g.m.id].toSched >= 0
    requires ViewOf(w, f, g.m).out == Some(f.tx[g.m.src].out[g.m.id])
    ensures HostsOk(w, Answers(f, g))
    ensures ViewOf(w, Answers(f, g), g.m) == AfterAnswered(ViewOf(w, f, g.m), g)
  {
    AnswersHosts(w, f, g);
    var v, v', o := ViewOf(w, f, g.m), ViewOf(w, Answers(f, g), g.m), f.tx[g.m.src].out[g.m.id];
    AnswersQueues(w, f, g, o);
    ViewOut(w, Answers(f, g), g.m);
    AnswersOut(f, g, o);
    AnsweredIs(v, v', o, g);
  }

  lemma FlyingHere(cfg: Config, w: World, f: Net, p: Pkt)
    requires NetOk(cfg, w, f) && p in f.net
    ensures p.m in w && p in ViewOf(w, f, p.m).flying && LiveOk(cfg, p.m, w[p.m], ViewOf(w, f, p.m))
  {
    OnlyHas(f.net + f.tx[w[p.m].dst].grantQ, p);
    assert p in Flying(w, f, p.m);
    LiveHere(cfg, p.m, w[p.m], ViewOf(w, f, p.m), p);
  }

  lemma AnswersViews(cfg: Config, w: World, f: Net, g: Pkt)
    requires cfg.Valid() && HostsOk(w, f) && ViewsOk(cfg, w, f) && g in f.net && g.m in w
    requires g.Grant? && g.m.id in f.tx[g.m.src].out && f.tx[g.m.src].out[g.m.id].toSched >= 0
    requires HostsOk(w, Answers(f, g)) && ViewOk(cfg, g.m, w[g.m], ViewOf(w, Answers(f, g), g.m))
    ensures ViewsOk(cfg, w, Answers(f, g))
  {
    AnswersOthers(w, f, g);
    OneChanged(cfg, w, f, Answers(f, g), g.m);
  }

  lemma AnswersOthers(w: World, f: Net, g: Pkt)
    requires HostsOk(w, f) && g in f.net
    requires g.Grant? && g.m.src in f.tx && g.m.id in f.tx[g.m.src].out && f.tx[g.m.src].out[g.m.id].toSched >= 0
    ensures HostsOk(w, Answers(f, g)) && OthersSame(w, f, Answers(f, g), g.m)
  {
    forall n | n in w && n != g.m
      ensures ViewOf(w, Answers(f, g), n) == ViewOf(w, f, n)
    {
      AnswersOther(w, f, g, n);
    }
  }

  /** A grant never reaches a message its sender has dropped, and is never cut short. */
  lemma AnswersOk(cfg: Config, w: World, f: Net, g: Pkt)
    requires NetOk(cfg, w, f) && g in f.net && g.Grant?
    ensures g.m in w && g.m.id in f.tx[g.m.src].out && 0 < g.len <= f.tx[g.m.src].out[g.m.id].toSched
    ensures NetOk(cfg, w, Answers(f, g))
  {
    FlyingHere(cfg, w, f, g);
    var v := ViewOf(w, f, g.m);
    GrantFindsMessage(cfg, g.m, w[g.m], v, g);
    assert v.out == OutIn(f.tx[g.m.src], g.m);
    ViewOut(w, f, g.m);
    AnswersView(w, f, g);
    AnsweredView(cfg, g.m, w[g.m], v, g);
    AnswersViews(cfg, w, f, g);
    AnswersPlaced(w, f, g);
  }

  lemma AnswersPlaced(w: World, f: Net, g: Pkt)
    requires Placed(w, f) && g in f.net && g.m.src in f.tx
    requires g.Grant? && g.m.id in f.tx[g.m.src].out && f.tx[g.m.src].out[g.m.id].toSched >= 0
    ensures Placed(w, Answers(f, g))
  {
    assert TxPlaced(w, g.m.src, f.tx[g.m.src]);
    PlacedTx(w, f.(net := f.net - multiset{g}), g.m.src, TakeGrant(f.tx[g.m.src], g));
  }

  // ---- a receiver grants ----

  ghost function Issues(f: Net, d: Addr, g: Pkt): Net
    requires d in f.tx && d in f.mesgs
  {
    f.(tx := f.tx[d := Emit(f.tx[d], g)], net := f.net + Emitted(f.tx[d], g),
       mesgs := f.mesgs[d := ApplyGrant(f.mesgs[d], g)])
  }

  lemma QueueAdd(net: multiset<Pkt>, q: multiset<Pkt>, p: Pkt, m: MsgRef)
    ensures Only(net + (q + multiset{p}), m) == if p.m == m then Only(net + q, m) + multiset{p} else Only(net + q, m)
  {
    assert net + (q + multiset{p}) == net + q + multiset{p};
    OnlyAdd(net + q, p, m);
  }

  lemma IssuesFlying(w: World, f: Net, d: Addr, g: Pkt, n: MsgRef)
    requires d in f.tx && d in f.mesgs && n in w && w[n].dst in f.tx && g.m in w && w[g.m].dst == d
    ensures Flying(w, Issues(f, d, g), n) == if g.m == n then Flying(w, f, n) + multiset{g} else Flying(w, f, n)
  {
    if f.tx[d].busy {
      assert f.net + multiset{} == f.net;
      if w[n].dst == d {
        QueueAdd(f.net, f.tx[d].grantQ, g, n);
      }
    } else {
      NetAdd(f.net, f.tx[w[n].dst].grantQ, g, n);
    }
  }

  lemma IssuesKnown(w: World, f: Net, d: Addr, g: Pkt, n: MsgRef)
    requires d in f.tx && d in f.mesgs && n in w && w[n].dst in f.mesgs
    requires g.m in w && w[g.m].dst == d && KnownIn(f.mesgs[d], g.m).Some?
    ensures var k := KnownIn(f.mesgs[w[n].dst], n);
      KnownIn(Issues(f, d, g).mesgs[w[n].dst], n) == if n == g.m then Some(PrepareGrant(k.value, g.len)) else k
  {
  }

  lemma IssuesQueued(f: Net, d: Addr, g: Pkt, n: MsgRef)
    requires d in f.tx && d in f.mesgs && n.src in f.tx
    ensures Queued(Issues(f, d, g), n) == Queued(f, n)
    ensures OutIn(Issues(f, d, g).tx[n.src], n) == OutIn(f.tx[n.src], n)
  {
  }

  lemma IssuesOther(w: World, f: Net, d: Addr, g: Pkt, n: MsgRef)
    requires HostsOk(w, f) && d in f.tx && n in w && n != g.m
    requires g.m in w && w[g.m].dst == d && KnownIn(f.mesgs[d], g.m).Some?
    ensures HostsOk(w, Issues(f, d, g))
    ensures ViewOf(w, Issues(f, d, g), n) == ViewOf(w, f, n)
  {
    IssuesFlying(w, f, d, g, n);
    IssuesKnown(w, f, d, g, n);
    IssuesQueued(f, d, g, n);
  }

  lemma IssuesView(w: World, f: Net, g: Pkt)
    requires HostsOk(w, f) && g.m in w && KnownIn(f.mesgs[w[g.m].dst], g.m).Some?
    ensures HostsOk(w, Issues(f, w[g.m].dst, g)) && ViewOf(w, f, g.m).known.Some?
    ensures ViewOf(w, Issues(f, w[g.m].dst, g), g.m) == AfterGranted(ViewOf(w, f, g.m), g)
  {
    var d := w[g.m].dst;
    IssuesFlying(w, f, d, g, g.m);
    IssuesKnown(w, f, d, g, g.m);
    IssuesQueued(f, d, g, g.m);
  }

  lemma IssuesViews(cfg: Config, w: World, f: Net, g: Pkt)
    requires cfg.Valid() && HostsOk(w, f) && ViewsOk(cfg, w, f)
    requires g.m in w && KnownIn(f.mesgs[w[g.m].dst], g.m).Some?
    requires ViewOk(cfg, g.m, w[g.m], ViewOf(w, Issues(f, w[g.m].dst, g), g.m))
    ensures ViewsOk(cfg, w, Issues(f, w[g.m].dst, g))
  {
    var d := w[g.m].dst;
    forall n | n in w && n != g.m
      ensures ViewOf(w, Issues(f, d, g), n) == ViewOf(w, f, n)
    {
      IssuesOther(w, f, d, g, n);
    }
    OneChanged(cfg, w, f, Issues(f, d, g), g.m);
  }

  lemma KnownHere(cfg: Config, w: World, f: Net, m: MsgRef)
    requires NetOk(cfg, w, f) && m in w && KnownIn(f.mesgs[w[m].dst], m).Some?
    ensures LiveOk(cfg, m, w[m], ViewOf(w, f, m)) && ViewOf(w, f, m).known == KnownIn(f.mesgs[w[m].dst], m)
  {
    assert ViewOk(cfg, m, w[m], ViewOf(w, f, m));
  }

  lemma IssuesOk(cfg: Config, w: World, f: Net, d: Addr, g: Pkt)
    requires NetOk(cfg, w, f) && d in f.tx && GrantFits(cfg, d, f.mesgs[d], g)
    ensures g.m in w && w[g.m].dst == d
    ensures NetOk(cfg, w, Issues(f, d, g))
  {
    assert RxPlaced(w, d, f.mesgs[d]);
    assert MsgRef(g.m.src, g.m.id) == g.m;
    KnownHere(cfg, w, f, g.m);
    GrantedView(cfg, g.m, w[g.m], ViewOf(w, f, g.m), g);
    IssuesView(w, f, g);
    IssuesViews(cfg, w, f, g);
    IssuesPlaced(w, f, d, g);
  }

  lemma IssuesPlaced(w: World, f: Net, d: Addr, g: Pkt)
    requires Placed(w, f) && d in f.tx && d in f.mesgs && g.m in w && w[g.m].dst == d
    ensures Placed(w, Issues(f, d, g))
  {
    assert TxPlaced(w, d, f.tx[d]);
    assert RxPlaced(w, d, f.mesgs[d]);
    var e := f.(net := f.net + Emitted(f.tx[d], g));
    PlacedRx(w, e, d, ApplyGrant(f.mesgs[d], g));
    PlacedTx(w, e.(mesgs := e.mesgs[d := ApplyGrant(f.mesgs[d], g)]), d, Emit(f.tx[d], g));
  }

  lemma PlacedRx(w: World, f: Net, d: Addr, ms: Mesgs)
    requires Placed(w, f) && d in f.mesgs && RxPlaced(w, d, ms)
    ensures Placed(w, f.(mesgs := f.mesgs[d := ms]))
  {
    var g := f.(mesgs := f.mesgs[d := ms]);
    forall k | k in g.tx
      ensures TxPlaced(w, k, g.tx[k])
    {
      assert TxPlaced(w, k, f.tx[k]);
    }
    forall k | k in g.mesgs
      ensures RxPlaced(w, k, g.mesgs[k])
    {
      if k != d { assert RxPlaced(w, k, f.mesgs[k]); }
    }
  }

  // ---- a data packet arrives at its receiver ----

  ghost function IncompleteOf(ms: Mesgs, s: Addr): map<nat, InMsg> { if s in ms then ms[s] else map[] }

  /** The sender's messages once message `id` is in state `j`. */
  ghost function WithMesg(incomplete: map<nat, InMsg>, id: nat, j: InMsg): map<nat, InMsg> {
    if j.toReceive == 0 then incomplete - {id} else incomplete[id := j]
  }

  ghost function Receives(f: Net, p: Pkt, j: InMsg): Net
    requires p.dst in f.mesgs
  {
    var ms := f.mesgs[p.dst];
    f.(mesgs := f.mesgs[p.dst := ms[p.m.src := WithMesg(IncompleteOf(ms, p.m.src), p.m.id, j)]],
       net := f.net - multiset{p}, rcvd := f.rcvd + multiset{p},
       delivered := f.delivered + if j.toReceive == 0 then multiset{p.m} else multiset{})
  }

  lemma ReceivesFlying(w: World, f: Net, p: Pkt, j: InMsg, n: MsgRef)
    requires p.dst in f.mesgs && p in f.net && n in w && w[n].dst in f.tx
    ensures Flying(w, Receives(f, p, j), n) == if p.m == n then Flying(w, f, n) - multiset{p} else Flying(w, f, n)
  {
    NetTake(f.net, f.tx[w[n].dst].grantQ, p, n);
  }

  lemma ReceivesKnown(w: World, f: Net, p: Pkt, j: InMsg, n: MsgRef)
    requires p.dst in f.mesgs && n in w && w[n].dst in f.mesgs && p.m in w && w[p.m].dst == p.dst
    ensures KnownIn(Receives(f, p, j).mesgs[w[n].dst], n)
         == if n != p.m then KnownIn(f.mesgs[w[n].dst], n) else if j.toReceive == 0 then None else Some(j)
  {
  }

  lemma ReceivesOther(w: World, f: Net, p: Pkt, j: InMsg, n: MsgRef)
    requires HostsOk(w, f) && p in f.net && n in w && n != p.m && p.m in w && w[p.m].dst == p.dst
    ensures HostsOk(w, Receives(f, p, j))
    ensures ViewOf(w, Receives(f, p, j), n) == ViewOf(w, f, n)
  {
    ReceivesFlying(w, f, p, j, n);
    ReceivesKnown(w, f, p, j, n);
    ReceivesLogs(f, p, j, n);
    assert Queued(Receives(f, p, j), n) == Queued(f, n);
  }

  ghost function Taken(v: View, p: Pkt, j: InMsg): View {
    var v' := v.(flying := v.flying - multiset{p}, rcvd := v.rcvd + multiset{p});
    if j.toReceive == 0 then v'.(known := None, delivered := v.delivered + 1) else v'.(known := Some(j))
  }

  lemma ReceivesLogs(f: Net, p: Pkt, j: InMsg, n: MsgRef)
    requires p.dst in f.mesgs
    ensures Only(Receives(f, p, j).rcvd, n) == if n == p.m then Only(f.rcvd, n) + multiset{p} else Only(f.rcvd, n)
    ensures Receives(f, p, j).delivered[n] == f.delivered[n] + if n == p.m && j.toReceive == 0 then 1 else 0
  {
    OnlyAdd(f.rcvd, p, n);
  }

  lemma ReceivesView(w: World, f: Net, p: Pkt, j: InMsg)
    requires HostsOk(w, f) && p in f.net && p.m in w && w[p.m].dst == p.dst
    ensures HostsOk(w, Receives(f, p, j))
    ensures ViewOf(w, Receives(f, p, j), p.m) == Taken(ViewOf(w, f, p.m), p, j)
  {
    ReceivesFlying(w, f, p, j, p.m);
    ReceivesKnown(w, f, p, j, p.m);
    ReceivesLogs(f, p, j, p.m);
    var u, v := ViewOf(w, Receives(f, p, j), p.m), ViewOf(w, f, p.m);
    assert u.queued == v.queued && u.out == v.out && u.todo == v.todo;
    TakenFields(u, v, p, j);
  }

  lemma TakenFields(u: View, v: View, p: Pkt, j: InMsg)
    requires u.queued == v.queued && u.out == v.out && u.todo == v.todo
    requires u.flying == v.flying - multiset{p} && u.rcvd == v.rcvd + multiset{p}
    requires u.delivered == v.delivered + if j.toReceive == 0 then 1 else 0
    requires u.known == if j.toReceive == 0 then None else Some(j)
    ensures u == Taken(v, p, j)
  {
  }

  lemma ReceivesViews(cfg: Config, w: World, f: Net, p: Pkt, j: InMsg)
    requires cfg.Valid() && HostsOk(w, f) && ViewsOk(cfg, w, f) && p in f.net && p.m in w && w[p.m].dst == p.dst
    requires HostsOk(w, Receives(f, p, j)) && ViewOk(cfg, p.m, w[p.m], ViewOf(w, Receives(f, p, j), p.m))
    ensures ViewsOk(cfg, w, Receives(f, p, j))
  {
    forall n | n in w && n != p.m
      ensures ViewOf(w, Receives(f, p, j), n) == ViewOf(w, f, n)
    {
      ReceivesOther(w, f, p, j, n);
    }
    OneChanged(cfg, w, f, Receives(f, p, j), p.m);
  }

  /** What the receiver has of the message, or what its first packet says of it. */
  ghost function LookupIn(ms: Mesgs, p: Pkt): InMsg
    requires KnownIn(ms, p.m).Some? || p.Unsched?
  {
    if KnownIn(ms, p.m).Some? then KnownIn(ms, p.m).value else NewInMsg(p)
  }

  /** The assertions on an arriving data packet. */
  ghost predicate DataAsserts(ms: Mesgs, p: Pkt) {
    && !p.Grant?
    && (KnownIn(ms, p.m).Some? || p.Unsched?)
    && FillAsserts(LookupIn(ms, p), p)
    && (Fill(LookupIn(ms, p), p).toReceive == 0 ==>
          LookupIn(ms, p).toGrant == 0 && Fill(LookupIn(ms, p), p).grants == [])
  }

  /** A message is announced by whichever of its packets comes first just as it is. */
  lemma FirstAnnounces(cfg: Config, m: MsgRef, spec: Spec, p: Pkt)
    requires cfg.Valid() && ValidSpec(spec) && p in multiset(Plan(cfg, m, spec))
    ensures p.Unsched? && p.m == m
    ensures NewInMsg(p) == Announced(m, spec.size, spec.created, Unscheduled(cfg, spec.size))
  {
    var i := PlanHas(cfg, m, spec, p);
  }

  lemma LookupSeen(cfg: Config, w: World, f: Net, p: Pkt)
    requires NetOk(cfg, w, f) && p in f.net && !p.Grant?
    ensures p.m in w && w[p.m].dst == p.dst && p.dst in f.mesgs
    ensures KnownIn(f.mesgs[p.dst], p.m).Some? || p.Unsched?
    ensures LookupIn(f.mesgs[p.dst], p) == Seen(cfg, p.m, w[p.m], ViewOf(w, f, p.m))
  {
    FlyingHere(cfg, w, f, p);
    var v := ViewOf(w, f, p.m);
    assert p in Bag(v);
    assert v.known == KnownIn(f.mesgs[w[p.m].dst], p.m);
    if v.known.None? {
      FirstAnnounces(cfg, p.m, w[p.m], p);
    }
  }

  /** A data packet passes every assertion, and a message is delivered exactly once, with
      its last byte. */
  lemma ReceivesOk(cfg: Config, w: World, f: Net, p: Pkt)
    requires NetOk(cfg, w, f) && p in f.net && !p.Grant?
    ensures p.m in w && w[p.m].dst == p.dst && p.dst in f.mesgs
    ensures DataAsserts(f.mesgs[p.dst], p)
    ensures NetOk(cfg, w, Receives(f, p, Fill(LookupIn(f.mesgs[p.dst], p), p)))
  {
    LookupSeen(cfg, w, f, p);
    FlyingHere(cfg, w, f, p);
    var v := ViewOf(w, f, p.m);
    DataView(cfg, p.m, w[p.m], v, p);
    FillKeeps(Seen(cfg, p.m, w[p.m], v), p);
    var j := Fill(LookupIn(f.mesgs[p.dst], p), p);
    ReceivesView(w, f, p, j);
    assert Taken(v, p, j) == AfterData(cfg, p.m, w[p.m], v, p);
    ReceivesViews(cfg, w, f, p, j);
    ReceivesPlaced(w, f, p, j);
  }

  lemma ReceivesPlaced(w: World, f: Net, p: Pkt, j: InMsg)
    requires Placed(w, f) && p in f.net && p.dst in f.mesgs && p.m in w && w[p.m].dst == p.dst
    ensures Placed(w, Receives(f, p, j))
  {
    assert RxPlaced(w, p.dst, f.mesgs[p.dst]);
    var e := f.(net := f.net - multiset{p}, rcvd := f.rcvd + multiset{p},
                delivered := f.delivered + if j.toReceive == 0 then multiset{p.m} else multiset{});
    assert Placed(w, e) by { PlacedSame(w, f, e); }
    var ms := f.mesgs[p.dst];
    WithPlaced(w, ms, p.dst, p.m, j);
    PlacedRx(w, e, p.dst, ms[p.m.src := WithMesg(IncompleteOf(ms, p.m.src), p.m.id, j)]);
  }

  lemma WithPlaced(w: World, ms: Mesgs, d: Addr, m: MsgRef, j: InMsg)
    requires RxPlaced(w, d, ms) && m in w && w[m].dst == d
    ensures RxPlaced(w, d, ms[m.src := WithMesg(IncompleteOf(ms, m.src), m.id, j)])
  {
    assert MsgRef(m.src, m.id) == m;
  }

  lemma PlacedSame(w: World, f: Net, g: Net)
    requires Placed(w, f) && g.tx == f.tx && g.mesgs == f.mesgs && g.todo == f.todo
    requires (forall p :: p in g.net ==> p.m in w) && (forall m :: m in g.delivered ==> m in w)
    ensures Placed(w, g)
  {
    forall k | k in g.tx
      ensures TxPlaced(w, k, g.tx[k])
    {
      assert TxPlaced(w, k, f.tx[k]);
    }
    forall k | k in g.mesgs
      ensures RxPlaced(w, k, g.mesgs[k])
    {
      assert RxPlaced(w, k, f.mesgs[k]);
    }
  }
}

/** The protocol as a transition system: hosts with a sender and a receiver, a network that
    may reorder but neither loses nor duplicates, link timers and grant timers that may
    fire at any time.  Every step keeps every message, every scheduler and every queue in
    order, and no assertion of the transport can fail. */
module Protocol {
  import opened Wire
  import opened HomaTypes
  import opened SenderState
  import opened Receiver
  import opened ReceiverEvents
  import opened ReceiverEffects
  import opened Sender
  import opened Flow

  datatype State = State(
    todo: set<MsgRef>,
    tx: map<Addr, Tx>,
    rx: map<Addr, Rx>,
    net: multiset<Pkt>,
    rcvd: multiset<Pkt>,
    delivered: multiset<MsgRef>)

  /** `next` is the data packet that leaves should the link be idle; a sender may take any
      of its queued packets, whatever order it keeps them in. */
  datatype Event =
    | AppSend(m: MsgRef, next: Pkt)
    | SendTimer(h: Addr, next: Pkt)
    | Arrive(p: Pkt, next: Pkt)
    | GrantTimer(d: Addr, s: Addr)

  ghost function FlowOf(st: State): Net {
    Net(st.todo, st.tx, map d | d in st.rx :: MesgsOf(st.rx[d]), st.net, st.rcvd, st.delivered)
  }

  function IdentFor(m: MsgRef, spec: Spec): Ident { Ident(spec.size, spec.created, m.id) }

  /** Messages to one receiver that agree in size, creation time and number come from one
      sender: only then do their keys tell senders apart. */
  ghost predicate DistinctKeys(w: World) {
    forall m, n :: m in w && n in w && w[m].dst == w[n].dst && IdentFor(m, w[m]) == IdentFor(n, w[n]) ==> m == n
  }

  ghost function Own(w: World, d: Addr): map<Ident, Addr>
    requires DistinctKeys(w)
  {
    map m | m in w && w[m].dst == d :: IdentFor(m, w[m]) := m.src
  }

  ghost predicate SchedulerOk(cfg: Config, w: World, d: Addr, rx: Rx)
    requires DistinctKeys(w)
  {
    rx.addr == d && RxOk(cfg, Own(w, d), rx, {}) && ServedFirst(cfg, rx, cfg.numToGrant)
  }

  predicate IdleOk(tx: Tx) { !tx.busy ==> tx.queued == multiset{} && tx.grantQ == multiset{} }

  ghost predicate Inv(cfg: Config, w: World, st: State) {
    && DistinctKeys(w)
    && NetOk(cfg, w, FlowOf(st))
    && (forall d {:trigger SchedulerOk(cfg, w, d, st.rx[d])} :: d in st.rx ==> SchedulerOk(cfg, w, d, st.rx[d]))
    && (forall h {:trigger IdleOk(st.tx[h])} :: h in st.tx ==> IdleOk(st.tx[h]))
  }

  // ---- steps ----

  ghost function WithTx(st: State, h: Addr, x: Tx): State { st.(tx := st.tx[h := x]) }

  ghost predicate KickAsserts(st: State, h: Addr, next: Pkt) {
    && h in st.tx
    && (!st.tx[h].busy ==> TransmitAsserts(st.tx[h], next) && st.tx[h].grantQ == multiset{})
  }

  /** What is asserted of a data packet about to leave: its message is there, has that
      much left, and has no more packets once nothing is left. */
  ghost predicate TransmitAsserts(tx: Tx, p: Pkt) {
    && p in tx.queued && p.m.id in tx.out && tx.out[p.m.id].left >= p.len
    && (tx.out[p.m.id].left == p.len ==> forall q :: q in tx.queued - multiset{p} ==> q.m != p.m)
  }

  /** sendOrQueue for data: an idle link takes a packet. */
  ghost function Kick(st: State, h: Addr, next: Pkt): State
    requires KickAsserts(st, h, next)
  {
    if st.tx[h].busy then st else WithTx(st, h, Transmit(st.tx[h], next)).(net := st.net + multiset{next})
  }

  /** A sender and the network. */
  datatype Link = Link(tx: Tx, net: multiset<Pkt>)

  /** sendOrQueue for each of the grants of an event */
  ghost function EmitSeq(l: Link, gs: seq<Pkt>): Link
    decreases |gs|
  {
    if gs == [] then l else EmitSeq(Link(Emit(l.tx, gs[0]), l.net + Emitted(l.tx, gs[0])), gs[1..])
  }

  ghost function EmitAll(st: State, d: Addr, gs: seq<Pkt>): State
    requires d in st.tx
  {
    var l := EmitSeq(Link(st.tx[d], st.net), gs);
    WithTx(st, d, l.tx).(net := l.net)
  }

  ghost function Accepted(cfg: Config, w: World, st: State, m: MsgRef): State
    requires cfg.Valid() && m in w && ValidSpec(w[m]) && m.src in st.tx
  {
    WithTx(st, m.src, Accept(cfg, st.tx[m.src], m, w[m])).(todo := st.todo - {m})
  }

  ghost predicate GrantAsserts(st: State, g: Pkt) {
    && g.Grant? && g.m.src in st.tx && g.m.id in st.tx[g.m.src].out
    && 0 < Min(g.len, st.tx[g.m.src].out[g.m.id].toSched)
  }

  ghost function Answered(st: State, g: Pkt): State
    requires GrantAsserts(st, g)
  {
    WithTx(st, g.m.src, TakeGrant(st.tx[g.m.src], g)).(net := st.net - multiset{g})
  }

  /** A grant that finds the link idle finds no other grants waiting. */
  predicate EmitAsserts(tx: Tx) { !tx.busy ==> tx.grantQ == multiset{} }

  ghost predicate ArrivalAsserts(cfg: Config, w: World, st: State, p: Pkt) {
    && DistinctKeys(w) && cfg.Valid() && p.dst in st.rx && p.dst in st.tx && EmitAsserts(st.tx[p.dst])
    && RxOk(cfg, Own(w, p.dst), st.rx[p.dst], {}) && Welcome(cfg, Own(w, p.dst), st.rx[p.dst], p)
  }

  ghost function ArrivedAt(cfg: Config, w: World, st: State, p: Pkt): Arrived
    requires ArrivalAsserts(cfg, w, st, p)
  {
    Arrival(cfg, Own(w, p.dst), st.rx[p.dst], p)
  }

  ghost function TakenIn(cfg: Config, w: World, st: State, p: Pkt): State
    requires ArrivalAsserts(cfg, w, st, p)
  {
    var a := ArrivedAt(cfg, w, st, p);
    st.(rx := st.rx[p.dst := a.rx], net := st.net - multiset{p}, rcvd := st.rcvd + multiset{p},
        delivered := st.delivered + if a.complete then multiset{p.m} else multiset{})
  }

  ghost predicate TimerAsserts(cfg: Config, w: World, st: State, d: Addr, s: Addr) {
    && DistinctKeys(w) && cfg.Valid() && d in st.rx && d in st.tx && EmitAsserts(st.tx[d]) && s in st.rx[d].sx
    && RxOk(cfg, Own(w, d), st.rx[d], {})
  }

  ghost function FiredAt(cfg: Config, w: World, st: State, d: Addr, s: Addr): Granted
    requires TimerAsserts(cfg, w, st, d, s)
  {
    TimerFires(cfg, Own(w, d), st.rx[d], s)
  }

  /** What may happen next. */
  ghost predicate Enabled(cfg: Config, w: World, st: State, e: Event) {
    match e
    case AppSend(m, next) =>
      m in st.todo && m in w && m.src in st.tx
      && (!st.tx[m.src].busy ==> cfg.Valid() && ValidSpec(w[m]) && next in Accepted(cfg, w, st, m).tx[m.src].queued)
    case SendTimer(h, next) =>
      h in st.tx && st.tx[h].busy
      && (if st.tx[h].grantQ != multiset{} then next in st.tx[h].grantQ
          else st.tx[h].queued != multiset{} ==> next in st.tx[h].queued)
    case Arrive(p, next) =>
      p in st.net
      && (p.Grant? && p.m.src in st.tx && !st.tx[p.m.src].busy ==>
            GrantAsserts(st, p) ==> next in Answered(st, p).tx[p.m.src].queued)
    case GrantTimer(d, s) =>
      d in st.rx && s in st.rx[d].sx && st.rx[d].sx[s].timer
  }

  /** Every assertion the transport makes on the way. */
  ghost predicate Asserts(cfg: Config, w: World, st: State, e: Event) {
    match e
    case AppSend(m, next) =>
      && cfg.Valid() && m in w && ValidSpec(w[m]) && m.src in st.tx && m.id !in st.tx[m.src].out
      && (!st.tx[m.src].busy ==> st.tx[m.src].queued == multiset{})
      && KickAsserts(Accepted(cfg, w, st, m), m.src, next)
    case SendTimer(h, next) =>
      && h in st.tx
      && (st.tx[h].grantQ == multiset{} && st.tx[h].queued != multiset{} ==> TransmitAsserts(st.tx[h], next))
    case Arrive(p, next) =>
      if p.Grant? then
        && GrantAsserts(st, p)
        && (!st.tx[p.m.src].busy ==> st.tx[p.m.src].queued == multiset{})
        && KickAsserts(Answered(st, p), p.m.src, next)
      else ArrivalAsserts(cfg, w, st, p)
    case GrantTimer(d, s) => TimerAsserts(cfg, w, st, d, s)
  }

  ghost function LinkFree(st: State, h: Addr, next: Pkt): State
    requires h in st.tx
    requires st.tx[h].grantQ == multiset{} && st.tx[h].queued != multiset{} ==> TransmitAsserts(st.tx[h], next)
  {
    if st.tx[h].grantQ != multiset{} then
      WithTx(st, h, st.tx[h].(grantQ := st.tx[h].grantQ - multiset{next})).(net := st.net + multiset{next})
    else if st.tx[h].queued != multiset{} then
      WithTx(st, h, Transmit(st.tx[h], next)).(net := st.net + multiset{next})
    else WithTx(st, h, st.tx[h].(busy := false))
  }

  ghost function Next(cfg: Config, w: World, st: State, e: Event): State
    requires Asserts(cfg, w, st, e)
  {
    match e
    case AppSend(m, next) => Kick(Accepted(cfg, w, st, m), m.src, next)
    case SendTimer(h, next) => LinkFree(st, h, next)
    case Arrive(p, next) =>
      if p.Grant? then Kick(Answered(st, p), p.m.src, next)
      else EmitAll(TakenIn(cfg, w, st, p), p.dst, ArrivedAt(cfg, w, st, p).grants)
    case GrantTimer(d, s) =>
      var g := FiredAt(cfg, w, st, d, s);
      EmitAll(st.(rx := st.rx[d := g.rx]), d, g.grants)
  }
}

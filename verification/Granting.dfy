/** What a grant says: for which message, how many bytes and at which priority, and when one
    is sent at all (sendAndScheduleGrant in HomaTransport.cc). */
module Granting {
  import opened Wrappers
  import opened Wire
  import opened Priority
  import opened HomaTypes
  import opened Inbound
  import opened SenderState
  import opened SchedList
  import opened Receiver
  import opened ReceiverEvents

  /** The bytes the resolver looks up: those still to grant in the graduated and the explicit
      mode, the whole message in the uniform modes. */
  function LookedUp(mode: PrioMode, i: InMsg): int {
    if mode == CbfGraduated || mode == Explicit then i.toGrant else i.size
  }

  /** The tail of the message is boosted. */
  predicate Boosted(cfg: Config, i: InMsg) { i.toGrant >= 0 && BytesOnWire(i.toGrant, SCHED_DATA) < cfg.boostTail }

  /** A grant for message `i` from a slot of priority `slotPrio` carries that priority, or
      that of the resolver if the tail is boosted and the resolver's is better. */
  ghost predicate PrioFor(cfg: Config, i: InMsg, slotPrio: int, prio: nat) {
    if Boosted(cfg, i) then
      exists k: nat :: LookedUp(cfg.mode, i) >= 0 && FirstReaching(cfg.cutOffs, LookedUp(cfg.mode, i), k)
                       && prio <= slotPrio && prio <= k && (prio == slotPrio || prio == k)
    else prio == slotPrio
  }

  lemma PrioIs(cfg: Config, x: Sx, slotPrio: nat)
    requires cfg.Valid() && x.queue != [] && TopOk(x) && slotPrio < cfg.allPrio
    ensures PrioFor(cfg, Top(x), slotPrio, GrantPrio(cfg, x, slotPrio))
  {
    var i := Top(x);
    if Boosted(cfg, i) {
      var k := SchedPktPrio(cfg.mode, cfg.cutOffs, cfg.boostTail, cfg.allPrio, i.size, i.toGrant);
      assert FirstReaching(cfg.cutOffs, LookedUp(cfg.mode, i), k);
    }
  }

  /** As many bytes as the message needs and one grant may ask for. */
  predicate LenFor(cfg: Config, i: InMsg, len: nat) {
    len <= i.toGrant && len <= cfg.grantMax && (len == i.toGrant || len == cfg.grantMax)
  }

  /** The grant timer runs exactly if the first message may be granted more. */
  predicate TimerFor(cfg: Config, x: Sx) {
    x.timer <==> x.queue != [] && x.queue[0] in x.incomplete && Top(x).inFlight < cfg.maxOutstanding
  }

  /** What a grant of `len` bytes leaves of the message. */
  predicate Lowered(i: InMsg, j: InMsg, len: nat) {
    && j.toGrant == i.toGrant - len && j.offset == i.offset + len && j.toReceive == i.toReceive
    && j.grantedInFlight == i.grantedInFlight + len
    && j.inFlight == i.inFlight + BytesOnWire(len, SCHED_DATA)
    && j.grants == i.grants + [Entry(i.offset, len)]
    && j.id == i.id && j.src == i.src && j.size == i.size && j.created == i.created && j.totalUnsched == i.totalUnsched
  }

  /** Sender `s` goes from `x` to `y` by grant `g` at priority `prio`. */
  predicate Grants(cfg: Config, addr: Addr, s: Addr, x: Sx, prio: nat, y: Sx, g: Pkt)
    requires x.queue != [] && x.queue[0] in x.incomplete
  {
    && g.Grant? && g.m == MsgRef(s, x.queue[0]) && g.dst == addr && g.first == Top(x).offset
    && LenFor(cfg, Top(x), g.len) && g.prio == prio == y.lastGrantPrio
    && y.queue == (if g.len == Top(x).toGrant then x.queue[1..] else x.queue)
    && y.incomplete.Keys == x.incomplete.Keys && Lowered(Top(x), y.incomplete[x.queue[0]], g.len)
    && (forall id :: id in x.incomplete && id != x.queue[0] ==> y.incomplete[id] == x.incomplete[id])
    && TimerFor(cfg, y) && y.lastIdx == x.lastIdx
  }

  /** One call of sendAndScheduleGrant at slot priority `slotPrio`: nothing happens while a
      grant at least as good is paced by the timer; a message at the limit stops the timer;
      otherwise a grant is sent. */
  ghost predicate SendRule(cfg: Config, addr: Addr, s: Addr, x: Sx, slotPrio: int, r: Sent)
    requires x.queue != [] && x.queue[0] in x.incomplete
  {
    exists prio: nat {:trigger PrioFor(cfg, Top(x), slotPrio, prio)} :: PrioFor(cfg, Top(x), slotPrio, prio) &&
      if x.timer && x.lastGrantPrio <= prio then r == Sent(x, None)
      else if Top(x).inFlight >= cfg.maxOutstanding then r == Sent(x.(timer := false), None)
      else r.grant.Some? && Grants(cfg, addr, s, x, prio, r.sx, r.grant.value)
  }

  lemma IssueGrants(cfg: Config, addr: Addr, s: Addr, x: Sx, prio: nat)
    requires cfg.Valid() && x.queue != [] && TopOk(x)
    ensures var r := Issue(cfg, addr, s, x, Min(Top(x).toGrant, cfg.grantMax), prio);
      r.grant.Some? && Grants(cfg, addr, s, x, prio, r.sx, r.grant.value)
  {
  }

  lemma SendFollowsRule(cfg: Config, addr: Addr, s: Addr, x: Sx, slotPrio: nat)
    requires cfg.Valid() && x.queue != [] && TopOk(x) && slotPrio < cfg.allPrio
    ensures SendRule(cfg, addr, s, x, slotPrio, SendAndSchedule(cfg, addr, s, x, slotPrio))
  {
    PrioIs(cfg, x, slotPrio);
    IssueGrants(cfg, addr, s, x, GrantPrio(cfg, x, slotPrio));
  }

  // ---- the grants of one event ----

  /** A sender has its turn while the scheduler is in state `rx`. */
  datatype Turn = Turn(rx: Rx, s: Addr)

  ghost predicate ItsTurn(cfg: Config, own: map<Ident, Addr>, t: Turn) {
    Unlisted(cfg, own, t.rx, t.s) && Rank(t.rx, t.s) < cfg.numToGrant
  }

  /** The slot insPoint gives the sender. */
  function SlotOf(cfg: Config, t: Turn): int { PlaceOf(cfg, t.rx, t.s).idx }

  /** Slots have the priorities below allPrio in order, the last of the scheduled ones the worst. */
  function SlotPrio(cfg: Config, slot: int): int { cfg.allPrio - cfg.schedPrios + slot }

  /** The grant is the one a turn asks for: to the sender's first message, at the priority of
      its slot or better. */
  ghost predicate TurnGrant(cfg: Config, t: Turn, g: Pkt) {
    && t.s in t.rx.sx && t.rx.sx[t.s].queue != [] && t.rx.sx[t.s].queue[0] in t.rx.sx[t.s].incomplete
    && var x := t.rx.sx[t.s];
    && g.Grant? && g.m == MsgRef(t.s, x.queue[0]) && g.dst == t.rx.addr && g.first == Top(x).offset
    && LenFor(cfg, Top(x), g.len) && Top(x).inFlight < cfg.maxOutstanding
    && 0 <= SlotOf(cfg, t) < cfg.schedPrios && PrioFor(cfg, Top(x), SlotPrio(cfg, SlotOf(cfg, t)), g.prio)
  }

  lemma TurnSends(cfg: Config, own: map<Ident, Addr>, t: Turn)
    requires ItsTurn(cfg, own, t)
    ensures var gs := GrantStep(cfg, own, t.rx, t.s).grants; gs == [] || (|gs| == 1 && TurnGrant(cfg, t, gs[0]))
  {
    var x := t.rx.sx[t.s];
    TopIsOk(x, t.s, own);
    GrantedSlot(cfg.schedPrios, cfg.numToGrant, t.rx.head, |t.rx.list|, Rank(t.rx, t.s), LastIdx(t.rx, t.s));
    SendFollowsRule(cfg, t.rx.addr, t.s, x, PrioForIdx(cfg, SlotOf(cfg, t)));
  }

  /** The turns of one event, one after the other. */
  ghost function Turns(cfg: Config, own: map<Ident, Addr>, rx: Rx, s: Addr): seq<Turn>
    requires Unlisted(cfg, own, rx, s) && Rank(rx, s) < cfg.numToGrant
    decreases Pending(rx)
  {
    if Done(cfg, own, rx, s) then [Turn(rx, s)]
    else
      NextOk(cfg, own, rx, s);
      [Turn(rx, s)] + Turns(cfg, own, NextRx(cfg, own, rx, s), NextSender(cfg, own, rx, s))
  }

  /** The grants of an event are those of its first turn, then those of the others. */
  lemma GrantsSplit(cfg: Config, own: map<Ident, Addr>, rx: Rx, s: Addr)
    requires Unlisted(cfg, own, rx, s) && Rank(rx, s) < cfg.numToGrant
    ensures Done(cfg, own, rx, s) ==> Settle(cfg, own, rx, s).grants == GrantStep(cfg, own, rx, s).grants
    ensures !Done(cfg, own, rx, s) ==>
      && Unlisted(cfg, own, NextRx(cfg, own, rx, s), NextSender(cfg, own, rx, s))
      && Rank(NextRx(cfg, own, rx, s), NextSender(cfg, own, rx, s)) < cfg.numToGrant
      && Settle(cfg, own, rx, s).grants == GrantStep(cfg, own, rx, s).grants
           + Settle(cfg, own, NextRx(cfg, own, rx, s), NextSender(cfg, own, rx, s)).grants
  {
    if !Done(cfg, own, rx, s) { NextOk(cfg, own, rx, s); }
  }

  ghost predicate TurnOf(cfg: Config, own: map<Ident, Addr>, rx: Rx, s: Addr, t: Turn)
    requires Unlisted(cfg, own, rx, s) && Rank(rx, s) < cfg.numToGrant
  {
    t in Turns(cfg, own, rx, s)
  }

  lemma FirstTurn(cfg: Config, own: map<Ident, Addr>, rx: Rx, s: Addr)
    requires Unlisted(cfg, own, rx, s) && Rank(rx, s) < cfg.numToGrant
    ensures TurnOf(cfg, own, rx, s, Turn(rx, s))
  {
  }

  lemma LaterTurn(cfg: Config, own: map<Ident, Addr>, rx: Rx, s: Addr, t: Turn)
    requires Unlisted(cfg, own, rx, s) && Rank(rx, s) < cfg.numToGrant && !Done(cfg, own, rx, s)
    requires Unlisted(cfg, own, NextRx(cfg, own, rx, s), NextSender(cfg, own, rx, s))
    requires Rank(NextRx(cfg, own, rx, s), NextSender(cfg, own, rx, s)) < cfg.numToGrant
    requires TurnOf(cfg, own, NextRx(cfg, own, rx, s), NextSender(cfg, own, rx, s), t)
    ensures TurnOf(cfg, own, rx, s, t)
  {
  }

  /** Every grant of an event belongs to one of its turns. */
  lemma {:induction false} SettleTurns(cfg: Config, own: map<Ident, Addr>, rx: Rx, s: Addr, k: nat) returns (t: Turn)
    requires Unlisted(cfg, own, rx, s) && Rank(rx, s) < cfg.numToGrant
    requires k < |Settle(cfg, own, rx, s).grants|
    ensures TurnOf(cfg, own, rx, s, t) && ItsTurn(cfg, own, t)
    ensures TurnGrant(cfg, t, Settle(cfg, own, rx, s).grants[k])
    decreases Pending(rx)
  {
    var gs := GrantStep(cfg, own, rx, s).grants;
    GrantsSplit(cfg, own, rx, s);
    if k < |gs| {
      t := Turn(rx, s);
      TurnSends(cfg, own, t);
      FirstTurn(cfg, own, rx, s);
    } else {
      NextOk(cfg, own, rx, s);
      t := SettleTurns(cfg, own, NextRx(cfg, own, rx, s), NextSender(cfg, own, rx, s), k - |gs|);
      LaterTurn(cfg, own, rx, s, t);
    }
  }

  /** The grants a packet leads to. */
  lemma ArrivalTurns(cfg: Config, own: map<Ident, Addr>, rx: Rx, p: Pkt, k: nat) returns (t: Turn)
    requires cfg.Valid() && RxOk(cfg, own, rx, {}) && Welcome(cfg, own, rx, p)
    requires k < |Arrival(cfg, own, rx, p).grants|
    ensures ItsTurn(cfg, own, t) && TurnGrant(cfg, t, Arrival(cfg, own, rx, p).grants[k])
    ensures Unlisted(cfg, own, AfterPkt(cfg, rx, p), p.m.src)
    ensures Rank(AfterPkt(cfg, rx, p), p.m.src) < cfg.numToGrant
    ensures TurnOf(cfg, own, AfterPkt(cfg, rx, p), p.m.src, t)
  {
    AfterPktOk(cfg, own, rx, p);
    t := SettleTurns(cfg, own, AfterPkt(cfg, rx, p), p.m.src, k);
  }

  /** The grants a grant timer leads to. */
  lemma TimerTurns(cfg: Config, own: map<Ident, Addr>, rx: Rx, s: Addr, k: nat) returns (t: Turn)
    requires cfg.Valid() && RxOk(cfg, own, rx, {}) && s in rx.sx
    requires k < |TimerFires(cfg, own, rx, s).grants|
    ensures ItsTurn(cfg, own, t) && TurnGrant(cfg, t, TimerFires(cfg, own, rx, s).grants[k])
    ensures var rx' := Remove(cfg, TimerOff(rx, s), s);
      Unlisted(cfg, own, rx', s) && Rank(rx', s) < cfg.numToGrant && TurnOf(cfg, own, rx', s, t)
  {
    TimerRemoveOk(cfg, own, rx, s);
    t := SettleTurns(cfg, own, Remove(cfg, TimerOff(rx, s), s), s, k);
  }
}

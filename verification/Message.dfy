/** One message from end to end: what its sender, its receiver, the packets and grants
    under way and the packets received say about it at any time, and how every step that
    concerns it keeps this. */
module Message {
  import opened Wrappers
  import opened Wire
  import opened HomaTypes
  import opened Inbound
  import opened SenderState
  import opened Sender
  import opened ReceiverEffects

  datatype View = View(
    todo: bool,                 // the application has not handed it over yet
    delivered: nat,             // times the receiving application got it
    out: Option<OutMsg>,        // its state at the sender
    known: Option<InMsg>,       // its state at the receiver
    queued: multiset<Pkt>,      // its packets waiting at the sender
    flying: multiset<Pkt>,      // its packets and grants in the network or waiting at the receiver
    rcvd: multiset<Pkt>)        // its packets that have arrived

  ghost function Bag(v: View): multiset<Pkt> { v.queued + v.flying }

  /** The message as its receiver sees it or will see it first. */
  ghost function Seen(cfg: Config, m: MsgRef, spec: Spec, v: View): InMsg {
    if v.known.Some? then v.known.value else Announced(m, spec.size, spec.created, Unscheduled(cfg, spec.size))
  }

  ghost predicate PktsOk(cfg: Config, m: MsgRef, spec: Spec, v: View) {
    && (forall p :: p in v.queued ==> !p.Grant?)
    && (forall p :: p in Bag(v) ==> p.m == m && p.dst == spec.dst && p.prio < cfg.allPrio)
  }

  ghost function DataBytes(bag: multiset<Pkt>, m: MsgRef): nat { Sum(bag, UBytes(m)) + Sum(bag, SBytes(m)) }

  /** The sender may schedule what the receiver may still grant or has granted, and has
      left to send that and what is queued; it drops the message when that is nothing. */
  ghost predicate OutOk(m: MsgRef, spec: Spec, v: View, toGrant: int) {
    match v.out
    case Some(o) =>
      && o.dst == spec.dst && o.size == spec.size && o.created == spec.created
      && o.toSched == toGrant + Sum(Bag(v), GBytes(m))
      && o.left == o.toSched + DataBytes(v.queued, m)
      && (o.left > 0 || v.queued != multiset{})
    case None =>
      toGrant == 0 && Sum(Bag(v), GBytes(m)) == 0 && v.queued == multiset{}
  }

  /** The most wire bytes a message may have in flight: its unscheduled bytes, or one
      grant beyond the last point below the limit. */
  function InFlightLimit(cfg: Config, size: nat): int {
    Max(BytesOnWire(Unscheduled(cfg, size), UNSCHED_DATA),
        cfg.maxOutstanding - 1 + BytesOnWire(cfg.grantMax, SCHED_DATA))
  }

  ghost predicate KnownOk(cfg: Config, m: MsgRef, spec: Spec, i: InMsg, v: View) {
    && spec.size > 0 && i.size == spec.size && i.created == spec.created
    && i.totalUnsched == Unscheduled(cfg, spec.size)
    && i.toReceive > 0
    && i.inFlight <= InFlightLimit(cfg, spec.size)
    && Agrees(m, i, Bag(v), v.rcvd)
  }

  ghost predicate LiveOk(cfg: Config, m: MsgRef, spec: Spec, v: View)
    requires cfg.Valid() && ValidSpec(spec)
  {
    && !v.todo && v.delivered == 0
    && PktsOk(cfg, m, spec, v)
    && OutOk(m, spec, v, Seen(cfg, m, spec, v).toGrant)
    && (v.known.None? ==> Bag(v) == multiset(Plan(cfg, m, spec)) && v.rcvd == multiset{})
    && (v.known.Some? ==> KnownOk(cfg, m, spec, v.known.value, v))
  }

  /** Delivered once, every byte received once, and nothing of it left anywhere. */
  ghost predicate DoneOk(m: MsgRef, spec: Spec, v: View) {
    && !v.todo && v.delivered == 1 && v.out.None? && v.known.None?
    && Bag(v) == multiset{}
    && forall b: nat :: b < spec.size ==> Cover(v.rcvd, m, b) == 1
  }

  const TODO: View := View(true, 0, None, None, multiset{}, multiset{}, multiset{})

  ghost predicate ViewOk(cfg: Config, m: MsgRef, spec: Spec, v: View)
    requires cfg.Valid() && ValidSpec(spec)
  {
    v == TODO || LiveOk(cfg, m, spec, v) || DoneOk(m, spec, v)
  }

  lemma AcceptView(cfg: Config, m: MsgRef, spec: Spec)
    requires cfg.Valid() && ValidSpec(spec)
    ensures LiveOk(cfg, m, spec, View(false, 0, Some(NewOut(cfg, spec)), None,
                                      multiset(Plan(cfg, m, spec)), multiset{}, multiset{}))
  {
    var plan := multiset(Plan(cfg, m, spec));
    var v := View(false, 0, Some(NewOut(cfg, spec)), None, plan, multiset{}, multiset{});
    assert Bag(v) == plan;
    AcceptPkts(cfg, m, spec, v);
    AcceptOut(cfg, m, spec, v);
  }

  lemma AcceptPkts(cfg: Config, m: MsgRef, spec: Spec, v: View)
    requires cfg.Valid() && ValidSpec(spec) && v.queued == Bag(v) == multiset(Plan(cfg, m, spec))
    ensures PktsOk(cfg, m, spec, v)
  {
    forall p | p in v.queued
      ensures !p.Grant? && p.m == m && p.dst == spec.dst && p.prio < cfg.allPrio
    {
      var k := PlanHas(cfg, m, spec, p);
      PlanFits(cfg, m, spec, k);
    }
  }

  lemma AcceptOut(cfg: Config, m: MsgRef, spec: Spec, v: View)
    requires cfg.Valid() && ValidSpec(spec) && v.queued == Bag(v) == multiset(Plan(cfg, m, spec))
    requires v.out == Some(NewOut(cfg, spec))
    ensures OutOk(m, spec, v, spec.size - Unscheduled(cfg, spec.size))
  {
    PlanAllFit(cfg, m, spec);
    PlanCounts(cfg, m, spec);
    NothingGranted(m, v.queued);
    assert Plan(cfg, m, spec)[0] in v.queued;
  }

  /** Agreement for a message nobody at the receiver has heard of. */
  lemma SeenAgrees(cfg: Config, m: MsgRef, spec: Spec, v: View)
    requires cfg.Valid() && ValidSpec(spec) && LiveOk(cfg, m, spec, v) && spec.size > 0
    ensures Agrees(m, Seen(cfg, m, spec, v), Bag(v), v.rcvd)
  {
    if v.known.None? {
      PlanAgrees(cfg, m, spec);
    }
  }

  /** Every packet of a message that is not empty carries data. */
  lemma HasData(cfg: Config, m: MsgRef, spec: Spec, v: View, p: Pkt)
    requires cfg.Valid() && ValidSpec(spec) && LiveOk(cfg, m, spec, v) && p in Bag(v)
    ensures spec.size > 0 ==> p.len > 0
    ensures spec.size == 0 ==> v.known.None? && Bag(v) == multiset{p} && p.Unsched? && p.len == 0
  {
    if spec.size > 0 {
      SeenAgrees(cfg, m, spec, v);
      assert PktFits(Seen(cfg, m, spec, v), p);
    } else {
      assert Sizes(cfg, 0) == [0];
      assert Plan(cfg, m, spec) == [PlanPkt(cfg, m, spec, 0)];
    }
  }

  lemma NoBytesNoPackets(cfg: Config, m: MsgRef, spec: Spec, v: View, p: Pkt)
    requires cfg.Valid() && ValidSpec(spec) && LiveOk(cfg, m, spec, v) && p in v.queued
    requires DataBytes(v.queued - multiset{p}, m) == 0
    ensures v.queued == multiset{p}
  {
    var rest := v.queued - multiset{p};
    HasData(cfg, m, spec, v, p);
    if q :| q in rest {
      assert q in Bag(v);
      HasData(cfg, m, spec, v, q);
      SumAtLeast(rest, q, UBytes(m));
      SumAtLeast(rest, q, SBytes(m));
    }
  }

  ghost function AfterTransmit(v: View, p: Pkt): View
    requires v.out.Some?
  {
    var o := v.out.value.(left := v.out.value.left - p.len);
    v.(out := if o.left <= 0 then None else Some(o), queued := v.queued - multiset{p}, flying := v.flying + multiset{p})
  }

  lemma MoveBag(v: View, p: Pkt)
    requires p in v.queued
    ensures v.queued - multiset{p} + (v.flying + multiset{p}) == Bag(v)
  {
  }

  lemma TransmitOut(m: MsgRef, spec: Spec, v: View, p: Pkt, toGrant: int)
    requires OutOk(m, spec, v, toGrant) && toGrant >= 0 && p in v.queued && !p.Grant? && p.m == m
    requires DataBytes(v.queued - multiset{p}, m) == 0 ==> v.queued == multiset{p}
    ensures v.out.Some? && v.out.value.left >= p.len
    ensures OutOk(m, spec, AfterTransmit(v, p), toGrant)
    ensures v.out.value.left == p.len ==> v.queued == multiset{p}
  {
    var v' := AfterTransmit(v, p);
    MoveBag(v, p);
    SumTake(v.queued, p);
    assert Sum(v.queued, UBytes(m)) == Weigh(UBytes(m), p) + Sum(v'.queued, UBytes(m));
    assert Sum(v.queued, SBytes(m)) == Weigh(SBytes(m), p) + Sum(v'.queued, SBytes(m));
    assert DataBytes(v.queued, m) == p.len + DataBytes(v'.queued, m);
  }

  /** A queued data packet leaves; the message is dropped with its last packet. */
  lemma TransmitView(cfg: Config, m: MsgRef, spec: Spec, v: View, p: Pkt)
    requires cfg.Valid() && ValidSpec(spec) && LiveOk(cfg, m, spec, v) && p in v.queued
    ensures v.out.Some? && v.out.value.left >= p.len
    ensures LiveOk(cfg, m, spec, AfterTransmit(v, p))
    ensures v.out.value.left == p.len ==> v.queued == multiset{p}
  {
    TransmitLast(cfg, m, spec, v, p);
    TransmitOut(m, spec, v, p, Seen(cfg, m, spec, v).toGrant);
    MoveBag(v, p);
    TransmitPkts(cfg, m, spec, v, p);
  }

  lemma TransmitLast(cfg: Config, m: MsgRef, spec: Spec, v: View, p: Pkt)
    requires cfg.Valid() && ValidSpec(spec) && LiveOk(cfg, m, spec, v) && p in v.queued
    ensures !p.Grant? && p.m == m && Seen(cfg, m, spec, v).toGrant >= 0
    ensures DataBytes(v.queued - multiset{p}, m) == 0 ==> v.queued == multiset{p}
  {
    assert p in Bag(v);
    ToGrantNonNeg(cfg, m, spec, v);
    if DataBytes(v.queued - multiset{p}, m) == 0 {
      NoBytesNoPackets(cfg, m, spec, v, p);
    }
  }

  lemma TransmitPkts(cfg: Config, m: MsgRef, spec: Spec, v: View, p: Pkt)
    requires PktsOk(cfg, m, spec, v) && p in v.queued && v.out.Some?
    ensures PktsOk(cfg, m, spec, AfterTransmit(v, p))
  {
    MoveBag(v, p);
  }

  lemma ToGrantNonNeg(cfg: Config, m: MsgRef, spec: Spec, v: View)
    requires cfg.Valid() && ValidSpec(spec) && LiveOk(cfg, m, spec, v)
    ensures Seen(cfg, m, spec, v).toGrant >= 0
  {
  }

  lemma BiggerWire(a: nat, b: nat)
    requires a <= b <= MAX_SCHED
    ensures BytesOnWire(a, SCHED_DATA) <= BytesOnWire(b, SCHED_DATA)
  {
  }

  ghost function AfterGranted(v: View, g: Pkt): View
    requires v.known.Some?
  {
    v.(known := Some(PrepareGrant(v.known.value, g.len)), flying := v.flying + multiset{g})
  }

  /** The receiver grants the next bytes of the message. */
  lemma GrantedView(cfg: Config, m: MsgRef, spec: Spec, v: View, g: Pkt)
    requires cfg.Valid() && ValidSpec(spec) && LiveOk(cfg, m, spec, v) && v.known.Some?
    requires GrantAllowed(cfg, spec.dst, v.known.value, g) && g.m == m
    ensures LiveOk(cfg, m, spec, AfterGranted(v, g))
  {
    GrantedPkts(cfg, m, spec, v, g);
    GrantedKnown(cfg, m, spec, v, g);
    GrantedOut(m, spec, v, g);
  }

  lemma GrantedPkts(cfg: Config, m: MsgRef, spec: Spec, v: View, g: Pkt)
    requires PktsOk(cfg, m, spec, v) && v.known.Some?
    requires GrantAllowed(cfg, spec.dst, v.known.value, g) && g.m == m
    ensures PktsOk(cfg, m, spec, AfterGranted(v, g))
  {
    assert Bag(AfterGranted(v, g)) == Bag(v) + multiset{g};
  }

  lemma GrantedKnown(cfg: Config, m: MsgRef, spec: Spec, v: View, g: Pkt)
    requires cfg.Valid() && v.known.Some? && KnownOk(cfg, m, spec, v.known.value, v)
    requires GrantAllowed(cfg, spec.dst, v.known.value, g) && g.m == m
    ensures KnownOk(cfg, m, spec, AfterGranted(v, g).known.value, AfterGranted(v, g))
  {
    assert Bag(AfterGranted(v, g)) == Bag(v) + multiset{g};
    GrantIssued(m, v.known.value, Bag(v), v.rcvd, g);
    BiggerWire(g.len, cfg.grantMax);
  }

  lemma GrantedOut(m: MsgRef, spec: Spec, v: View, g: Pkt)
    requires v.known.Some? && OutOk(m, spec, v, v.known.value.toGrant)
    requires g.Grant? && g.m == m && 0 < g.len <= v.known.value.toGrant
    ensures OutOk(m, spec, AfterGranted(v, g), AfterGranted(v, g).known.value.toGrant)
  {
    assert Bag(AfterGranted(v, g)) == Bag(v) + multiset{g};
    SumAdd(Bag(v), g);
    assert Sum(Bag(v) + multiset{g}, GBytes(m)) == Sum(Bag(v), GBytes(m)) + Weigh(GBytes(m), g);
  }

  ghost function AfterAnswered(v: View, g: Pkt): View
    requires v.out.Some? && g.Grant? && v.out.value.toSched >= 0
  {
    var p := Answer(v.out.value, g);
    v.(out := Some(v.out.value.(toSched := v.out.value.toSched - p.len)),
       queued := v.queued + multiset{p}, flying := v.flying - multiset{g})
  }

  /** A grant finds its message at the sender, which can schedule all of it. */
  lemma GrantFindsMessage(cfg: Config, m: MsgRef, spec: Spec, v: View, g: Pkt)
    requires cfg.Valid() && ValidSpec(spec) && LiveOk(cfg, m, spec, v) && g in v.flying && g.Grant?
    ensures g.m == m && g.dst == spec.dst && v.known.Some?
    ensures v.out.Some? && 0 < g.len <= v.out.value.toSched
  {
    assert g in Bag(v);
    HasData(cfg, m, spec, v, g);
    SumAtLeast(Bag(v), g, GBytes(m));
    ToGrantNonNeg(cfg, m, spec, v);
    if v.known.None? {
      PlanAllFit(cfg, m, spec);
    }
  }

  lemma AnsweredView(cfg: Config, m: MsgRef, spec: Spec, v: View, g: Pkt)
    requires cfg.Valid() && ValidSpec(spec) && LiveOk(cfg, m, spec, v) && g in v.flying && g.Grant?
    requires v.out.Some? && v.out.value.toSched >= 0
    ensures LiveOk(cfg, m, spec, AfterAnswered(v, g))
    ensures Answer(v.out.value, g).len == g.len
  {
    GrantFindsMessage(cfg, m, spec, v, g);
    var p := Answer(v.out.value, g);
    SwapBag(v, g, p);
    AnsweredKnown(cfg, m, spec, v.known.value, v, g);
    AnsweredOut(m, spec, v, g, v.known.value.toGrant);
  }

  lemma AnsweredKnown(cfg: Config, m: MsgRef, spec: Spec, i: InMsg, v: View, g: Pkt)
    requires KnownOk(cfg, m, spec, i, v) && PktsOk(cfg, m, spec, v) && g in v.flying && g.Grant? && g.m == m
    requires v.out.Some? && 0 < g.len <= v.out.value.toSched
    ensures KnownOk(cfg, m, spec, i, AfterAnswered(v, g)) && PktsOk(cfg, m, spec, AfterAnswered(v, g))
  {
    var p := Answer(v.out.value, g);
    SwapBag(v, g, p);
    GrantAnswered(m, i, Bag(v), v.rcvd, g, p);
    AnsweredPkts(cfg, m, spec, v, g);
  }

  lemma AnsweredPkts(cfg: Config, m: MsgRef, spec: Spec, v: View, g: Pkt)
    requires PktsOk(cfg, m, spec, v) && g in v.flying && g.Grant? && g.m == m
    requires v.out.Some? && v.out.value.toSched >= 0
    ensures PktsOk(cfg, m, spec, AfterAnswered(v, g))
  {
    assert g in Bag(v);
    assert forall q :: q in Bag(AfterAnswered(v, g)) ==> q in Bag(v) || q == Answer(v.out.value, g);
  }

  lemma SwapBag(v: View, g: Pkt, p: Pkt)
    requires g in v.flying
    ensures v.queued + multiset{p} + (v.flying - multiset{g}) == Bag(v) - multiset{g} + multiset{p}
  {
  }

  lemma AnsweredOut(m: MsgRef, spec: Spec, v: View, g: Pkt, toGrant: int)
    requires OutOk(m, spec, v, toGrant) && v.out.Some? && g in v.flying && g.Grant? && g.m == m
    requires 0 < g.len <= v.out.value.toSched
    ensures OutOk(m, spec, AfterAnswered(v, g), toGrant)
  {
    var v', p := AfterAnswered(v, g), Answer(v.out.value, g);
    SwapBag(v, g, p);
    SumTake(Bag(v), g);
    SumAdd(Bag(v) - multiset{g}, p);
    assert Sum(Bag(v), GBytes(m)) == Weigh(GBytes(m), g) + Sum(Bag(v) - multiset{g}, GBytes(m));
    assert Sum(Bag(v'), GBytes(m)) == Sum(Bag(v) - multiset{g}, GBytes(m)) + Weigh(GBytes(m), p);
    SumAdd(v.queued, p);
    assert Sum(v'.queued, UBytes(m)) == Sum(v.queued, UBytes(m)) + Weigh(UBytes(m), p);
    assert Sum(v'.queued, SBytes(m)) == Sum(v.queued, SBytes(m)) + Weigh(SBytes(m), p);
  }

  /** The message at its receiver after packet `p`, and whether that completes it. */
  ghost function AfterData(cfg: Config, m: MsgRef, spec: Spec, v: View, p: Pkt): View
    requires !p.Grant? && FillAsserts(Seen(cfg, m, spec, v), p)
  {
    var j := Fill(Seen(cfg, m, spec, v), p);
    var v' := v.(flying := v.flying - multiset{p}, rcvd := v.rcvd + multiset{p});
    if j.toReceive == 0 then v'.(known := None, delivered := v.delivered + 1) else v'.(known := Some(j))
  }

  lemma TakeBag(v: View, p: Pkt)
    requires p in v.flying
    ensures v.queued + (v.flying - multiset{p}) == Bag(v) - multiset{p}
  {
  }

  /** A message without data is complete with its request packet. */
  lemma EmptyMessage(cfg: Config, m: MsgRef, spec: Spec, v: View, p: Pkt)
    requires cfg.Valid() && ValidSpec(spec) && LiveOk(cfg, m, spec, v) && spec.size == 0 && p in v.flying
    ensures v.known.None? && !p.Grant? && FillAsserts(Seen(cfg, m, spec, v), p)
    ensures var j := Fill(Seen(cfg, m, spec, v), p); j.toReceive == 0 == j.toGrant && j.grants == []
    ensures DoneOk(m, spec, AfterData(cfg, m, spec, v, p))
  {
    assert p in Bag(v);
    HasData(cfg, m, spec, v, p);
    TakeBag(v, p);
    assert v.queued == multiset{};
    Dropped(m, spec, v, p, 0);
  }

  /** Nothing queued and nothing to schedule: the sender has dropped the message. */
  lemma Dropped(m: MsgRef, spec: Spec, v: View, p: Pkt, toGrant: int)
    requires OutOk(m, spec, v, toGrant) && toGrant == 0 && v.queued == multiset{}
    requires Bag(v) == multiset{p} && !p.Grant?
    ensures v.out.None?
  {
    SumNone(v.queued, UBytes(m));
    SumNone(v.queued, SBytes(m));
    SumNone(Bag(v), GBytes(m));
  }

  lemma NothingElse(cfg: Config, m: MsgRef, spec: Spec, v: View, p: Pkt)
    requires PktsOk(cfg, m, spec, v) && p in v.flying
    requires forall q :: q in Bag(v) - multiset{p} ==> q.m != m
    ensures Bag(v) == multiset{p} && v.queued == multiset{} && v.flying == multiset{p}
  {
    var rest := Bag(v) - multiset{p};
    forall q
      ensures q !in rest
    {
      assert q in rest ==> q in Bag(v);
    }
    assert rest == multiset{};
    assert v.queued == multiset{};
  }

  lemma CompleteView(cfg: Config, m: MsgRef, spec: Spec, v: View, p: Pkt, j: InMsg)
    requires cfg.Valid() && ValidSpec(spec) && LiveOk(cfg, m, spec, v) && spec.size > 0 && p in v.flying
    requires !p.Grant? && FillAsserts(Seen(cfg, m, spec, v), p) && j == Fill(Seen(cfg, m, spec, v), p)
    requires Agrees(m, j, Bag(v) - multiset{p}, v.rcvd + multiset{p}) && j.toReceive == 0
    ensures j.toGrant == 0 && j.grants == []
    ensures DoneOk(m, spec, AfterData(cfg, m, spec, v, p))
  {
    FillKeeps(Seen(cfg, m, spec, v), p);
    SeenSize(cfg, m, spec, v);
    CompleteMeansAll(m, j, Bag(v) - multiset{p}, v.rcvd + multiset{p});
    NothingElse(cfg, m, spec, v, p);
    Dropped(m, spec, v, p, j.toGrant);
  }

  lemma SeenSize(cfg: Config, m: MsgRef, spec: Spec, v: View)
    requires cfg.Valid() && ValidSpec(spec) && LiveOk(cfg, m, spec, v)
    ensures var i := Seen(cfg, m, spec, v);
      i.size == spec.size && i.created == spec.created && i.totalUnsched == Unscheduled(cfg, spec.size)
      && i.inFlight <= InFlightLimit(cfg, spec.size)
  {
  }

  /** A data packet arrives: every assertion about it holds, and the message is delivered
      exactly when its last byte is there. */
  lemma DataView(cfg: Config, m: MsgRef, spec: Spec, v: View, p: Pkt)
    requires cfg.Valid() && ValidSpec(spec) && LiveOk(cfg, m, spec, v) && p in v.flying && !p.Grant?
    ensures FillAsserts(Seen(cfg, m, spec, v), p) && (v.known.None? ==> p.Unsched?)
    ensures var j := Fill(Seen(cfg, m, spec, v), p); j.toReceive == 0 ==> j.toGrant == 0 && j.grants == []
    ensures ViewOk(cfg, m, spec, AfterData(cfg, m, spec, v, p))
  {
    assert p in Bag(v);
    if v.known.None? {
      PlanAllFit(cfg, m, spec);
    }
    if spec.size == 0 {
      EmptyMessage(cfg, m, spec, v, p);
    } else {
      FilledView(cfg, m, spec, v, p);
    }
  }

  lemma FilledView(cfg: Config, m: MsgRef, spec: Spec, v: View, p: Pkt)
    requires cfg.Valid() && ValidSpec(spec) && LiveOk(cfg, m, spec, v) && p in v.flying && !p.Grant?
    requires spec.size > 0
    ensures FillAsserts(Seen(cfg, m, spec, v), p)
    ensures var j := Fill(Seen(cfg, m, spec, v), p); j.toReceive == 0 ==> j.toGrant == 0 && j.grants == []
    ensures ViewOk(cfg, m, spec, AfterData(cfg, m, spec, v, p))
  {
    var i := Seen(cfg, m, spec, v);
    assert p in Bag(v);
    SeenAgrees(cfg, m, spec, v);
    if p.Unsched? {
      FillUnsched(m, i, Bag(v), v.rcvd, p);
    } else {
      FillSched(m, i, Bag(v), v.rcvd, p);
    }
    if Fill(i, p).toReceive == 0 {
      CompleteView(cfg, m, spec, v, p, Fill(i, p));
    } else {
      PartialView(cfg, m, spec, v, p);
    }
  }

  lemma PartialView(cfg: Config, m: MsgRef, spec: Spec, v: View, p: Pkt)
    requires cfg.Valid() && ValidSpec(spec) && LiveOk(cfg, m, spec, v) && p in v.flying && !p.Grant?
    requires spec.size > 0 && FillAsserts(Seen(cfg, m, spec, v), p)
    requires Agrees(m, Fill(Seen(cfg, m, spec, v), p), Bag(v) - multiset{p}, v.rcvd + multiset{p})
    requires Fill(Seen(cfg, m, spec, v), p).toReceive != 0
    ensures LiveOk(cfg, m, spec, AfterData(cfg, m, spec, v, p))
  {
    var i, v' := Seen(cfg, m, spec, v), AfterData(cfg, m, spec, v, p);
    TakeBag(v, p);
    FillKeeps(i, p);
    SeenSize(cfg, m, spec, v);
    PartialKnown(cfg, m, spec, v', Fill(i, p));
    PartialOut(m, spec, v, v', p, i.toGrant);
    PartialPkts(cfg, m, spec, v, v', p);
  }

  lemma PartialPkts(cfg: Config, m: MsgRef, spec: Spec, v: View, v': View, p: Pkt)
    requires PktsOk(cfg, m, spec, v) && v'.queued == v.queued && Bag(v') == Bag(v) - multiset{p}
    ensures PktsOk(cfg, m, spec, v')
  {
    assert forall q :: q in Bag(v') ==> q in Bag(v);
  }

  lemma PartialKnown(cfg: Config, m: MsgRef, spec: Spec, v: View, j: InMsg)
    requires spec.size > 0 && j.size == spec.size && j.created == spec.created
    requires j.totalUnsched == Unscheduled(cfg, spec.size) && j.inFlight <= InFlightLimit(cfg, spec.size)
    requires Agrees(m, j, Bag(v), v.rcvd) && j.toReceive != 0
    ensures KnownOk(cfg, m, spec, j, v)
  {
  }

  lemma PartialOut(m: MsgRef, spec: Spec, v: View, v': View, p: Pkt, toGrant: int)
    requires OutOk(m, spec, v, toGrant) && p in Bag(v) && !p.Grant?
    requires v'.out == v.out && v'.queued == v.queued && Bag(v') == Bag(v) - multiset{p}
    ensures OutOk(m, spec, v', toGrant)
  {
    SumTake(Bag(v), p);
    assert Sum(Bag(v), GBytes(m)) == Weigh(GBytes(m), p) + Sum(Bag(v) - multiset{p}, GBytes(m));
  }
}

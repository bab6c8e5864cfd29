/** The bytes a receiver counts as in flight over all priorities (getInflightBytes): they are
    zero exactly when nothing that was announced or granted is still to arrive. */
module InFlight {
  import opened Sums
  import opened Wire
  import opened HomaTypes
  import opened Receiver
  import opened Message
  import opened Flow
  import opened Protocol
  import opened Accounting

  function InFlightBytes(rx: Rx): int { CtrSum(rx.unschedCtr) + CtrSum(rx.schedCtr) }

  lemma {:induction false} CtrSumZero(ctr: seq<int>)
    requires forall k :: 0 <= k < |ctr| ==> ctr[k] >= 0
    ensures CtrSum(ctr) >= 0
    ensures CtrSum(ctr) == 0 <==> forall k :: 0 <= k < |ctr| ==> ctr[k] == 0
  {
    if ctr != [] {
      CtrSumZero(ctr[1..]);
      if CtrSum(ctr) == 0 {
        forall k | 0 <= k < |ctr|
          ensures ctr[k] == 0
        {
          if k > 0 { assert ctr[1..][k - 1] == 0; }
        }
      }
    }
  }

  lemma {:induction false} TotalZero<K>(f: map<K, nat>)
    ensures Total(f) == 0 <==> forall k :: k in f ==> f[k] == 0
    decreases |f|
  {
    if f != map[] {
      var c :| c in f;
      TotalAt(f, c);
      TotalZero(f - {c});
      if Total(f) == 0 {
        forall k | k in f
          ensures f[k] == 0
        {
          if k != c { assert (f - {c})[k] == 0; }
        }
      }
    }
  }

  /** The receiver waits for the packet: it was announced by another one, or granted. */
  ghost predicate Awaited(v: View, p: Pkt) { p in Bag(v) && (v.known.Some? || !p.Unsched?) }

  ghost predicate NothingAwaited(v: View) { forall p :: !Awaited(v, p) }

  ghost predicate NoParts(cfg: Config, v: View, m: MsgRef) {
    forall prio: nat :: prio < cfg.allPrio ==> UPart(v, m, prio) == 0 == SPart(v, m, prio)
  }

  lemma PartsOfNone(v: View, m: MsgRef, prio: nat)
    requires NothingAwaited(v)
    ensures UPart(v, m, prio) == 0 == SPart(v, m, prio)
  {
    forall p | p in Bag(v)
      ensures v.known.None? && p.Unsched?
    {
      assert !Awaited(v, p);
    }
    SumNone(Bag(v), SWire(m, prio));
    if v.known.Some? { SumNone(Bag(v), UWire(m, prio)); }
  }

  lemma PartOf(v: View, m: MsgRef, p: Pkt)
    requires Awaited(v, p) && p.m == m
    ensures UPart(v, m, p.prio) > 0 || SPart(v, m, p.prio) > 0
  {
    assert DataWire(p) > 0;
    if p.Unsched? {
      SumAtLeast(Bag(v), p, UWire(m, p.prio));
    } else {
      SumAtLeast(Bag(v), p, SWire(m, p.prio));
    }
  }

  lemma PartsZero(cfg: Config, m: MsgRef, spec: Spec, v: View)
    requires cfg.Valid() && ValidSpec(spec) && ViewOk(cfg, m, spec, v)
    ensures NoParts(cfg, v, m) <==> NothingAwaited(v)
  {
    if NothingAwaited(v) {
      NoneAwaited(cfg, v, m);
    } else {
      var p :| Awaited(v, p);
      AwaitedFits(cfg, m, spec, v, p);
      PartOf(v, m, p);
    }
  }

  lemma NoneAwaited(cfg: Config, v: View, m: MsgRef)
    requires NothingAwaited(v)
    ensures NoParts(cfg, v, m)
  {
    forall prio: nat | prio < cfg.allPrio
      ensures UPart(v, m, prio) == 0 == SPart(v, m, prio)
    {
      PartsOfNone(v, m, prio);
    }
  }

  lemma AwaitedFits(cfg: Config, m: MsgRef, spec: Spec, v: View, p: Pkt)
    requires cfg.Valid() && ValidSpec(spec) && ViewOk(cfg, m, spec, v) && Awaited(v, p)
    ensures p.m == m && p.prio < cfg.allPrio
  {
  }

  /** Nothing announced or granted is on its way to receiver `d`. */
  ghost predicate AllArrived(w: World, f: Net, d: Addr)
    requires HostsOk(w, f)
  {
    forall m :: m in w && w[m].dst == d ==> NothingAwaited(ViewOf(w, f, m))
  }

  ghost predicate NoSums(cfg: Config, w: World, f: Net, d: Addr)
    requires HostsOk(w, f)
  {
    forall prio: nat :: prio < cfg.allPrio ==> USum(w, f, d, prio) == 0 == SSum(w, f, d, prio)
  }

  lemma SumsZero(cfg: Config, w: World, f: Net, d: Addr)
    requires NetOk(cfg, w, f)
    ensures NoSums(cfg, w, f, d) <==> AllArrived(w, f, d)
  {
    if AllArrived(w, f, d) {
      forall prio: nat | prio < cfg.allPrio
        ensures USum(w, f, d, prio) == 0 == SSum(w, f, d, prio)
      {
        ArrivedSums(cfg, w, f, d, prio);
      }
    }
    if NoSums(cfg, w, f, d) {
      forall m | m in w && w[m].dst == d
        ensures NothingAwaited(ViewOf(w, f, m))
      {
        NoSumsParts(cfg, w, f, d, m);
        PartsZero(cfg, m, w[m], ViewOf(w, f, m));
      }
    }
  }

  lemma ArrivedSums(cfg: Config, w: World, f: Net, d: Addr, prio: nat)
    requires HostsOk(w, f) && AllArrived(w, f, d)
    ensures USum(w, f, d, prio) == 0 == SSum(w, f, d, prio)
  {
    TotalZero(UParts(w, f, d, prio));
    TotalZero(SParts(w, f, d, prio));
    forall m | m in w && w[m].dst == d
      ensures UParts(w, f, d, prio)[m] == 0 == SParts(w, f, d, prio)[m]
    {
      PartsOfNone(ViewOf(w, f, m), m, prio);
    }
  }

  lemma NoSumsParts(cfg: Config, w: World, f: Net, d: Addr, m: MsgRef)
    requires HostsOk(w, f) && NoSums(cfg, w, f, d) && m in w && w[m].dst == d
    ensures NoParts(cfg, ViewOf(w, f, m), m)
  {
    forall prio: nat | prio < cfg.allPrio
      ensures UPart(ViewOf(w, f, m), m, prio) == 0 == SPart(ViewOf(w, f, m), m, prio)
    {
      NoSumsPart(w, f, d, m, prio);
    }
  }

  lemma NoSumsPart(w: World, f: Net, d: Addr, m: MsgRef, prio: nat)
    requires HostsOk(w, f) && m in w && w[m].dst == d && USum(w, f, d, prio) == 0 == SSum(w, f, d, prio)
    ensures UPart(ViewOf(w, f, m), m, prio) == 0 == SPart(ViewOf(w, f, m), m, prio)
  {
    var us, ss := UParts(w, f, d, prio), SParts(w, f, d, prio);
    TotalZero(us);
    TotalZero(ss);
    assert us[m] == 0 == ss[m];
  }

  lemma BytesZero(cfg: Config, w: World, f: Net, d: Addr, rx: Rx)
    requires NetOk(cfg, w, f) && CtrAt(cfg, w, f, d, rx)
    ensures InFlightBytes(rx) >= 0
    ensures InFlightBytes(rx) == 0 <==> AllArrived(w, f, d)
  {
    CtrsZero(cfg, w, f, d, rx.unschedCtr, rx.schedCtr);
    SumsZero(cfg, w, f, d);
  }

  lemma CtrsZero(cfg: Config, w: World, f: Net, d: Addr, uctr: seq<int>, sctr: seq<int>)
    requires HostsOk(w, f) && CtrOk(cfg, w, f, d, uctr, sctr)
    ensures CtrSum(uctr) >= 0 && CtrSum(sctr) >= 0
    ensures CtrSum(uctr) == 0 == CtrSum(sctr) <==> NoSums(cfg, w, f, d)
  {
    CtrSumZero(uctr);
    CtrSumZero(sctr);
    if CtrSum(uctr) == 0 == CtrSum(sctr) {
      forall prio: nat | prio < cfg.allPrio
        ensures USum(w, f, d, prio) == 0 == SSum(w, f, d, prio)
      {
        assert uctr[prio] == 0 == sctr[prio];
      }
    }
  }
}

/** Whom the receive scheduler prefers, told in the fields of the messages: fewest bytes to
    grant first (CompareBytesToGrant and CompSched in HomaTransport.h). */
module Ranking {
  import opened Wire
  import opened HomaTypes
  import opened Keys
  import opened Inbound
  import opened SenderState
  import opened Receiver
  import opened ReceiverEvents

  /** Fewer bytes to grant; among equals the smaller message, then the older one, then the
      one with the lower number. */
  predicate Sooner(i: InMsg, j: InMsg) {
    || i.toGrant < j.toGrant
    || (i.toGrant == j.toGrant && i.size < j.size)
    || (i.toGrant == j.toGrant && i.size == j.size && i.created < j.created)
    || (i.toGrant == j.toGrant && i.size == j.size && i.created == j.created && i.id < j.id)
  }

  /** A message of `x` that needs grants. */
  predicate Waits(x: Sx, id: nat) { id in x.incomplete && x.incomplete[id].toGrant > 0 }

  /** mesgsToGrant lists the messages that need grants, the one preferred first. */
  lemma QueueRanked(x: Sx, s: Addr, own: map<Ident, Addr>, j: nat, k: nat)
    requires SxOk(x, s, own) && j < k < |x.queue|
    ensures x.queue[j] in x.incomplete && x.queue[k] in x.incomplete
    ensures Sooner(x.incomplete[x.queue[j]], x.incomplete[x.queue[k]])
  {
    var ks := QKeys(x.incomplete, x.queue);
    assert Less(ks[j], ks[k]);
  }

  /** The first message of a sender is preferred to every other one that needs grants. */
  lemma FirstIsSoonest(x: Sx, s: Addr, own: map<Ident, Addr>, id: nat)
    requires SxOk(x, s, own) && Waits(x, id)
    ensures x.queue != [] && Waits(x, x.queue[0])
    ensures id != x.queue[0] ==> Sooner(Top(x), x.incomplete[id])
  {
    var k := Position(x.queue, id);
    if k > 0 { QueueRanked(x, s, own, 0, k); }
  }

  lemma SoonerTrans(i: InMsg, j: InMsg, k: InMsg)
    requires Sooner(i, j) && Sooner(j, k)
    ensures Sooner(i, k)
  {
  }

  /** The first message of the sender at a place of the list. */
  ghost function TopAt(rx: Rx, i: nat): InMsg
    requires i < |rx.list| && rx.list[i] in rx.sx && rx.sx[rx.list[i]].queue != []
    requires rx.sx[rx.list[i]].queue[0] in rx.sx[rx.list[i]].incomplete
  {
    Top(rx.sx[rx.list[i]])
  }

  lemma TopThere(cfg: Config, own: map<Ident, Addr>, rx: Rx, ex: set<Addr>, i: nat)
    requires RxOk(cfg, own, rx, ex) && i < |rx.list|
    ensures rx.list[i] in rx.sx && rx.sx[rx.list[i]].queue != []
    ensures rx.sx[rx.list[i]].queue[0] in rx.sx[rx.list[i]].incomplete
    ensures KeysOf(rx.sx, rx.list)[i] == KeyOf(TopAt(rx, i))
  {
    Listed(cfg, own, rx, ex, i);
  }

  /** Senders are listed by their first messages, the preferred one first. */
  lemma ListRanked(cfg: Config, own: map<Ident, Addr>, rx: Rx, ex: set<Addr>, i: nat, j: nat)
    requires RxOk(cfg, own, rx, ex) && i < j < |rx.list|
    ensures rx.list[i] in rx.sx && rx.sx[rx.list[i]].queue != []
    ensures rx.sx[rx.list[i]].queue[0] in rx.sx[rx.list[i]].incomplete
    ensures rx.list[j] in rx.sx && rx.sx[rx.list[j]].queue != []
    ensures rx.sx[rx.list[j]].queue[0] in rx.sx[rx.list[j]].incomplete
    ensures Sooner(TopAt(rx, i), TopAt(rx, j))
  {
    TopThere(cfg, own, rx, ex, i);
    TopThere(cfg, own, rx, ex, j);
    assert Less(KeysOf(rx.sx, rx.list)[i], KeysOf(rx.sx, rx.list)[j]);
  }

  /** An unlisted sender's rank: the listed senders before it are preferred to it and it is
      preferred to those from there on. */
  lemma RankMeans(cfg: Config, own: map<Ident, Addr>, rx: Rx, s: Addr, i: nat)
    requires Unlisted(cfg, own, rx, s) && i < |rx.list|
    ensures rx.sx[s].queue[0] in rx.sx[s].incomplete
    ensures rx.list[i] in rx.sx && rx.sx[rx.list[i]].queue != []
    ensures rx.sx[rx.list[i]].queue[0] in rx.sx[rx.list[i]].incomplete
    ensures if i < Rank(rx, s) then Sooner(TopAt(rx, i), Top(rx.sx[s])) else Sooner(Top(rx.sx[s]), TopAt(rx, i))
  {
    var ks, k := KeysOf(rx.sx, rx.list), KeyAt(rx.sx, s);
    assert SxOk(rx.sx[s], s, own);
    TopThere(cfg, own, rx, {s}, i);
    assert s !in rx.list by {
      assert s in rx.list <==> NeedsGrants(rx, s) && s !in {s};
    }
    KeyIsNew(cfg, own, rx, {s}, s);
    assert ks[i] in ks && ks[i] != k;
    RankSplits(ks, k, i);
  }

  lemma RankSplits(ks: seq<Key>, k: Key, i: nat)
    requires Sorted(ks) && i < |ks| && ks[i] != k
    ensures if i < UpperBound(ks, k) then Less(ks[i], k) else Less(k, ks[i])
  {
    var r := UpperBound(ks, k);
    if i > r { assert Less(ks[r], ks[i]); }
  }

  /** The sender is not one of the first `numToGrant`. */
  predicate Waiting(cfg: Config, rx: Rx, t: Addr) {
    t in rx.sx && forall i :: 0 <= i < cfg.numToGrant && i < |rx.list| ==> rx.list[i] != t
  }

  /** Nothing a granted sender is granted for comes later than what any other sender waits for. */
  ghost predicate BestFirst(cfg: Config, rx: Rx) {
    forall i: nat, t, id | i < cfg.numToGrant && i < |rx.list| && Waiting(cfg, rx, t) && Waits(rx.sx[t], id) ::
      && rx.list[i] in rx.sx && rx.sx[rx.list[i]].queue != []
      && rx.sx[rx.list[i]].queue[0] in rx.sx[rx.list[i]].incomplete
      && Sooner(TopAt(rx, i), rx.sx[t].incomplete[id])
  }

  lemma GrantedSooner(cfg: Config, own: map<Ident, Addr>, rx: Rx, i: nat, t: Addr, id: nat)
    requires RxOk(cfg, own, rx, {}) && i < cfg.numToGrant && i < |rx.list|
    requires Waiting(cfg, rx, t) && Waits(rx.sx[t], id)
    ensures rx.list[i] in rx.sx && rx.sx[rx.list[i]].queue != []
    ensures rx.sx[rx.list[i]].queue[0] in rx.sx[rx.list[i]].incomplete
    ensures Sooner(TopAt(rx, i), rx.sx[t].incomplete[id])
  {
    assert SxOk(rx.sx[t], t, own);
    FirstIsSoonest(rx.sx[t], t, own, id);
    assert t in rx.list <==> NeedsGrants(rx, t) && t !in {};
    var j := Position(rx.list, t);
    ListRanked(cfg, own, rx, {}, i, j);
    if id != rx.sx[t].queue[0] { SoonerTrans(TopAt(rx, i), TopAt(rx, j), rx.sx[t].incomplete[id]); }
  }

  /** The granted senders are the best ones. */
  lemma BestAreFirst(cfg: Config, own: map<Ident, Addr>, rx: Rx)
    requires RxOk(cfg, own, rx, {})
    ensures BestFirst(cfg, rx)
  {
    forall i: nat, t, id | i < cfg.numToGrant && i < |rx.list| && Waiting(cfg, rx, t) && Waits(rx.sx[t], id)
      ensures rx.list[i] in rx.sx && rx.sx[rx.list[i]].queue != []
      ensures rx.sx[rx.list[i]].queue[0] in rx.sx[rx.list[i]].incomplete
      ensures Sooner(TopAt(rx, i), rx.sx[t].incomplete[id])
    {
      GrantedSooner(cfg, own, rx, i, t, id);
    }
  }

  /** After every packet the best senders are those served. */
  lemma ArrivalBest(cfg: Config, own: map<Ident, Addr>, rx: Rx, p: Pkt)
    requires cfg.Valid() && RxOk(cfg, own, rx, {}) && Welcome(cfg, own, rx, p)
    requires ServedFirst(cfg, rx, cfg.numToGrant)
    ensures BestFirst(cfg, Arrival(cfg, own, rx, p).rx)
    ensures ServedFirst(cfg, Arrival(cfg, own, rx, p).rx, cfg.numToGrant)
  {
    ArrivalOk(cfg, own, rx, p);
    BestAreFirst(cfg, own, Arrival(cfg, own, rx, p).rx);
  }

  /** And after every grant timer. */
  lemma TimerBest(cfg: Config, own: map<Ident, Addr>, rx: Rx, s: Addr)
    requires cfg.Valid() && RxOk(cfg, own, rx, {}) && s in rx.sx
    requires ServedFirst(cfg, rx, cfg.numToGrant)
    ensures BestFirst(cfg, TimerFires(cfg, own, rx, s).rx)
    ensures ServedFirst(cfg, TimerFires(cfg, own, rx, s).rx, cfg.numToGrant)
  {
    TimerFiresOk(cfg, own, rx, s);
    BestAreFirst(cfg, own, TimerFires(cfg, own, rx, s).rx);
  }
}

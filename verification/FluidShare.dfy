/** Fluid processor sharing over a heap that is changed in place (getEndTimes in
    determine_inter_mimic_intervals.py): every active flow has an equal share of the
    bandwidth at all times and ends exactly when its shares add up to its size. */
module FluidShare {
  /** A flow record; the number tells records of equal start and size apart. */
  datatype Flow = Flow(id: nat, start: real, size: real)

  /** A heap entry: the size left and the flow. */
  datatype Active = Active(left: real, flow: Flow)

  /** An output record: the flow and its end time. */
  datatype Done = Done(flow: Flow, end: real)

  /** A stretch of time in which the same flows shared the bandwidth. */
  datatype Segment = Segment(from: real, to: real, rate: real, members: set<Flow>)

  // ---- the heap ----

  function Parent(i: int): int { (i - 1) / 2 }

  predicate Ordered(h: seq<Active>, i: int)
    requires 0 < i < |h|
  {
    h[Parent(i)].left <= h[i].left
  }

  predicate IsHeap(h: seq<Active>) { forall i :: 0 < i < |h| ==> Ordered(h, i) }

  lemma {:induction false} RootIsLeast(h: seq<Active>, i: nat)
    requires IsHeap(h) && i < |h|
    ensures h[0].left <= h[i].left
  {
    if i > 0 {
      assert Ordered(h, i);
      RootIsLeast(h, Parent(i));
    }
  }

  /** `j` has a grandparent in order, which is its parent's parent. */
  predicate Bridged(h: seq<Active>, j: int)
    requires 0 < Parent(j) < j < |h|
  {
    h[Parent(Parent(j))].left <= h[j].left
  }

  /** Heap order may fail between `i` and its parent only. */
  predicate HeapAbove(h: seq<Active>, i: int) {
    && (forall j :: 0 < j < |h| && j != i ==> Ordered(h, j))
    && (forall j :: 0 < j < |h| && Parent(j) == i && 0 < i ==> Bridged(h, j))
  }

  /** Heap order may fail between `i` and its children only. */
  predicate HeapBelow(h: seq<Active>, i: int) {
    && (forall j :: 0 < j < |h| && Parent(j) != i ==> Ordered(h, j))
    && (forall j :: 0 < j < |h| && Parent(j) == i && 0 < i ==> Bridged(h, j))
  }

  function Swap(h: seq<Active>, i: nat, j: nat): (r: seq<Active>)
    requires i < |h| && j < |h|
    ensures |r| == |h| && multiset(r) == multiset(h)
  {
    h[i := h[j]][j := h[i]]
  }

  lemma UpStep(h: seq<Active>, i: int)
    requires 0 < i < |h| && HeapAbove(h, i) && h[i].left < h[Parent(i)].left
    ensures HeapAbove(Swap(h, i, Parent(i)), Parent(i))
  {
    var p, r := Parent(i), Swap(h, i, Parent(i));
    forall j | 0 < j < |r|
      ensures j != p ==> Ordered(r, j)
      ensures Parent(j) == p && 0 < p ==> Bridged(r, j)
    {
      assert j != i ==> Ordered(h, j);
      assert p > 0 ==> Ordered(h, p);
      assert Parent(j) == i ==> Bridged(h, j);
    }
  }

  method HeapPush(heap: seq<Active>, x: Active) returns (h: seq<Active>)
    requires IsHeap(heap)
    ensures IsHeap(h) && multiset(h) == multiset(heap) + multiset{x} && |h| == |heap| + 1
  {
    h := heap + [x];
    var i := |heap|;
    forall j | 0 < j < |h| && j != i
      ensures Ordered(h, j)
    {
      assert Ordered(heap, j);
    }
    while i > 0 && h[i].left < h[Parent(i)].left
      invariant 0 <= i < |h| == |heap| + 1 && HeapAbove(h, i) && multiset(h) == multiset(heap) + multiset{x}
    {
      UpStep(h, i);
      h := Swap(h, i, Parent(i));
      i := Parent(i);
    }
  }

  function LesserChild(h: seq<Active>, i: nat): nat
    requires 2 * i + 1 < |h|
  {
    if 2 * i + 2 < |h| && h[2 * i + 2].left < h[2 * i + 1].left then 2 * i + 2 else 2 * i + 1
  }

  lemma DownStep(h: seq<Active>, i: nat)
    requires 2 * i + 1 < |h| && HeapBelow(h, i) && h[LesserChild(h, i)].left < h[i].left
    ensures HeapBelow(Swap(h, i, LesserChild(h, i)), LesserChild(h, i))
  {
    var c, r := LesserChild(h, i), Swap(h, i, LesserChild(h, i));
    forall j | 0 < j < |r|
      ensures Parent(j) != c ==> Ordered(r, j)
      ensures Parent(j) == c ==> Bridged(r, j)
    {
      assert Parent(j) != i ==> Ordered(h, j);
      assert 0 < i ==> Bridged(h, c);
    }
  }

  /** The last entry goes to the root and sinks to its place. */
  method HeapPop(heap: seq<Active>) returns (h: seq<Active>)
    requires IsHeap(heap) && heap != []
    ensures IsHeap(h) && multiset(h) == multiset(heap) - multiset{heap[0]} && |h| == |heap| - 1
  {
    var n := |heap| - 1;
    if n == 0 {
      assert heap == [heap[0]];
      return [];
    }
    MovedLast(heap);
    h := MoveLast(heap);
    var i := 0;
    while 2 * i + 1 < n && h[LesserChild(h, i)].left < h[i].left
      invariant 0 <= i < n == |h| && HeapBelow(h, i) && multiset(h) == multiset(heap) - multiset{heap[0]}
      decreases n - i
    {
      DownStep(h, i);
      var c := LesserChild(h, i);
      h := Swap(h, i, c);
      i := c;
    }
    forall j | 0 < j < |h|
      ensures Ordered(h, j)
    {
    }
  }

  function MoveLast(heap: seq<Active>): seq<Active>
    requires |heap| > 1
  {
    [heap[|heap| - 1]] + heap[1..|heap| - 1]
  }

  lemma MovedLast(heap: seq<Active>)
    requires IsHeap(heap) && |heap| > 1
    ensures var h := MoveLast(heap);
            |h| == |heap| - 1 && HeapBelow(h, 0) && multiset(h) == multiset(heap) - multiset{heap[0]}
  {
    var n, h := |heap| - 1, MoveLast(heap);
    assert heap == [heap[0]] + heap[1..n] + [heap[n]];
    forall j | 0 < j < |h| && Parent(j) != 0
      ensures Ordered(h, j)
    {
      assert Ordered(heap, j);
    }
  }

  /** Taking the same amount from every entry in place keeps the heap in order. */
  method Drain(heap: seq<Active>, amount: real) returns (h: seq<Active>)
    requires IsHeap(heap)
    ensures IsHeap(h) && Drained(heap, h, amount)
  {
    h := heap;
    for i := 0 to |heap|
      invariant |h| == |heap|
      invariant forall j :: 0 <= j < i ==> h[j] == Active(heap[j].left - amount, heap[j].flow)
      invariant forall j :: i <= j < |h| ==> h[j] == heap[j]
    {
      h := h[i := Active(h[i].left - amount, h[i].flow)];
    }
    DrainedHeap(heap, h, amount);
  }

  /** The entries after a share of `amount` each. */
  predicate Drained(h: seq<Active>, h': seq<Active>, amount: real) {
    |h'| == |h| && forall i :: 0 <= i < |h| ==> h'[i] == Active(h[i].left - amount, h[i].flow)
  }

  lemma DrainedHeap(h: seq<Active>, h': seq<Active>, amount: real)
    requires IsHeap(h) && Drained(h, h', amount)
    ensures IsHeap(h')
  {
    forall j | 0 < j < |h'|
      ensures Ordered(h', j)
    {
      assert Ordered(h, j);
    }
  }

  // ---- service ----

  ghost predicate MembersIn(log: seq<Segment>, flows: set<Flow>) {
    forall k :: 0 <= k < |log| ==> log[k].members <= flows
  }

  /** What a flow has been served. */
  function Served(log: seq<Segment>, f: Flow): real {
    if log == [] then 0.0
    else
      var s := log[|log| - 1];
      Served(log[..|log| - 1], f) + if f in s.members then (s.to - s.from) * s.rate else 0.0
  }

  function BusyTime(log: seq<Segment>): real {
    if log == [] then 0.0 else BusyTime(log[..|log| - 1]) + log[|log| - 1].to - log[|log| - 1].from
  }

  /** Some time at rates that add up to the bandwidth. */
  predicate Saturated(bandwidth: real, s: Segment) {
    s.from < s.to && s.rate > 0.0 && s.rate * |s.members| as real == bandwidth
  }

  /** Chronological stretches in which the members share all of the bandwidth equally. */
  ghost predicate LogOk(bandwidth: real, log: seq<Segment>, now: real) {
    && (forall k :: 0 <= k < |log| ==> Saturated(bandwidth, log[k]) && log[k].to <= now)
    && (forall j, k :: 0 <= j < k < |log| ==> log[j].to <= log[k].from)
  }

  /** How long a flow has been among those served. */
  function TimeServed(log: seq<Segment>, f: Flow): real {
    if log == [] then 0.0
    else
      var s := log[|log| - 1];
      TimeServed(log[..|log| - 1], f) + if f in s.members then s.to - s.from else 0.0
  }

  /** An active flow has been served all the time since its start. */
  ghost predicate ActiveOk(log: seq<Segment>, now: real, a: Active) {
    && a.left >= 0.0 && a.flow.start <= now && a.left + Served(log, a.flow) == a.flow.size
    && TimeServed(log, a.flow) == now - a.flow.start
    && forall k :: 0 <= k < |log| ==> (a.flow in log[k].members <==> a.flow.start <= log[k].from)
  }

  /** An ended flow was served all the time between its start and its end, in exactly the
      stretches that lie there, and its shares add up to its size. */
  ghost predicate DoneOk(log: seq<Segment>, now: real, d: Done) {
    && d.flow.start <= d.end <= now && Served(log, d.flow) == d.flow.size
    && TimeServed(log, d.flow) == d.end - d.flow.start
    && forall k :: 0 <= k < |log| ==>
         (d.flow in log[k].members <==> d.flow.start <= log[k].from && log[k].to <= d.end)
  }

  lemma {:induction false} ServedNonNegative(log: seq<Segment>, f: Flow)
    requires forall k :: 0 <= k < |log| ==> log[k].from < log[k].to && log[k].rate > 0.0
    ensures Served(log, f) >= 0.0
  {
    if log != [] {
      ServedNonNegative(log[..|log| - 1], f);
      ProductPositive(log[|log| - 1].to - log[|log| - 1].from, log[|log| - 1].rate);
    }
  }

  lemma ProductPositive(x: real, y: real)
    requires x > 0.0 && y > 0.0
    ensures x * y > 0.0
  {
  }

  lemma {:induction false} ServedNone(log: seq<Segment>, f: Flow)
    requires forall k :: 0 <= k < |log| ==> f !in log[k].members
    ensures Served(log, f) == 0.0 == TimeServed(log, f)
  {
    if log != [] { ServedNone(log[..|log| - 1], f); }
  }

  lemma ActiveGoesOn(bandwidth: real, log: seq<Segment>, now: real, s: Segment, a: Active)
    requires LogOk(bandwidth, log, now) && ActiveOk(log, now, a) && a.left > 0.0
    requires s.from == now < s.to && a.flow in s.members && a.left - s.rate * (s.to - s.from) >= 0.0
    ensures ActiveOk(log + [s], s.to, Active(a.left - s.rate * (s.to - s.from), a.flow))
  {
    ServedMore(log, s, a.flow);
    AmongMembers(log, s, a.flow);
    Commuted(s.rate, s.to - s.from);
  }

  lemma Commuted(x: real, y: real)
    ensures x * y == y * x
  {
  }

  lemma ServedMore(log: seq<Segment>, s: Segment, f: Flow)
    ensures Served(log + [s], f) == Served(log, f) + if f in s.members then (s.to - s.from) * s.rate else 0.0
    ensures TimeServed(log + [s], f) == TimeServed(log, f) + if f in s.members then s.to - s.from else 0.0
  {
    assert (log + [s])[..|log|] == log;
  }

  lemma AmongMembers(log: seq<Segment>, s: Segment, f: Flow)
    requires forall k :: 0 <= k < |log| ==> (f in log[k].members <==> f.start <= log[k].from)
    requires f in s.members && f.start <= s.from
    ensures var l := log + [s]; forall k :: 0 <= k < |l| ==> (f in l[k].members <==> f.start <= l[k].from)
  {
  }

  lemma DoneStays(log: seq<Segment>, now: real, s: Segment, d: Done)
    requires DoneOk(log, now, d) && s.from == now < s.to && d.flow !in s.members
    ensures DoneOk(log + [s], s.to, d)
  {
    var l := log + [s];
    assert l[..|l| - 1] == log && l[|log|] == s;
  }

  // ---- the simulation ----

  function EndedFlows(h: seq<Done>): seq<Flow> { seq(|h|, i requires 0 <= i < |h| => h[i].flow) }

  predicate Differ(h: seq<Active>, i: int, j: int)
    requires 0 <= i < j < |h|
  {
    h[i].flow != h[j].flow
  }

  predicate Distinct(h: seq<Active>) { forall i, j :: 0 <= i < j < |h| ==> Differ(h, i, j) }

  /** What is true of the entries, the records and the log at time `now`. */
  ghost predicate AccountsOk(active: seq<Active>, finished: seq<Done>, now: real, log: seq<Segment>, rest: set<Flow>) {
    && (forall a :: a in active ==> ActiveOk(log, now, a))
    && (forall d :: d in finished ==> DoneOk(log, now, d))
    && (forall f, k :: f in rest && 0 <= k < |log| ==> f !in log[k].members)
  }

  /** Every flow is in exactly one place: sharing, ended, or still to come. */
  ghost predicate PlacesOk(active: seq<Active>, finished: seq<Done>, sharing: set<Flow>, ended: set<Flow>,
                           rest: set<Flow>, all: set<Flow>) {
    && Distinct(active) && |sharing| == |active| && (forall a :: a in active ==> a.flow in sharing)
    && multiset(EndedFlows(finished)) == multiset(ended)
    && sharing + ended + rest == all && sharing !! ended && sharing + ended !! rest
  }

  /** What has been served so far, and where each flow is. */
  datatype Ledger = Ledger(log: seq<Segment>, sharing: set<Flow>, ended: set<Flow>, rest: set<Flow>, all: set<Flow>)

  ghost predicate Sim(bandwidth: real, active: seq<Active>, finished: seq<Done>, now: real, l: Ledger) {
    match l
    case Ledger(log, sharing, ended, rest, all) =>
      && IsHeap(active) && LogOk(bandwidth, log, now) && MembersIn(log, all)
      && AccountsOk(active, finished, now, log, rest)
      && PlacesOk(active, finished, sharing, ended, rest, all)
  }

  // ---- heap operations and the flows in the heap ----

  /** Each entry occurs once and no flow twice. */
  ghost predicate DistinctBag(m: multiset<Active>) {
    forall x, y :: x in m && y in m ==> m[x] == 1 && (x.flow == y.flow ==> x == y)
  }

  lemma {:induction false} CountOnce(h: seq<Active>, i: nat)
    requires i < |h| && forall j :: 0 <= j < |h| && j != i ==> h[j] != h[i]
    ensures multiset(h)[h[i]] == 1
  {
    assert h == h[..i] + [h[i]] + h[i + 1..];
    assert h[i] !in h[..i] && h[i] !in h[i + 1..];
  }

  lemma DistinctToBag(h: seq<Active>)
    requires Distinct(h)
    ensures DistinctBag(multiset(h))
  {
    forall x, y | x in multiset(h) && y in multiset(h)
      ensures multiset(h)[x] == 1 && (x.flow == y.flow ==> x == y)
    {
      var i :| 0 <= i < |h| && h[i] == x;
      var j :| 0 <= j < |h| && h[j] == y;
      forall k | 0 <= k < |h| && k != i
        ensures h[k].flow != h[i].flow
      {
        assert if k < i then Differ(h, k, i) else Differ(h, i, k);
      }
      CountOnce(h, i);
    }
  }

  lemma BagToDistinct(h: seq<Active>)
    requires DistinctBag(multiset(h))
    ensures Distinct(h)
  {
    forall i, j | 0 <= i < j < |h|
      ensures Differ(h, i, j)
    {
      assert h[i] in multiset(h) && h[j] in multiset(h);
      assert h == h[..i] + [h[i]] + h[i + 1..];
      assert h[j] == h[i + 1..][j - i - 1];
      assert h[i] == h[j] ==> multiset(h)[h[i]] >= 2;
    }
  }

  lemma Pushed(h: seq<Active>, h': seq<Active>, x: Active, sharing: set<Flow>)
    requires Distinct(h) && multiset(h') == multiset(h) + multiset{x}
    requires x.flow !in sharing && forall a :: a in h ==> a.flow in sharing
    ensures Distinct(h') && forall a :: a in h' <==> a == x || a in h
  {
    DistinctToBag(h);
    forall a
      ensures a in h' <==> a == x || a in h
    {
      assert a in h' <==> a in multiset(h');
    }
    assert DistinctBag(multiset(h'));
    BagToDistinct(h');
  }

  /** The entries but one. */
  ghost predicate Without(h': seq<Active>, h: seq<Active>, x: Active) {
    && Distinct(h')
    && (forall a :: a in h' <==> a != x && a in h)
    && (forall a :: a in h' ==> a.flow != x.flow)
  }

  lemma Popped(h: seq<Active>, h': seq<Active>, x: Active)
    requires Distinct(h) && x in h && multiset(h') == multiset(h) - multiset{x}
    ensures Without(h', h, x)
  {
    DistinctToBag(h);
    assert x in multiset(h);
    forall a
      ensures a in h' <==> a != x && a in h
      ensures a in h' ==> a.flow != x.flow
    {
      assert a in h' <==> a in multiset(h');
    }
    assert DistinctBag(multiset(h'));
    BagToDistinct(h');
  }

  // ---- the simulation ----

  lemma EqualShare(bandwidth: real, n: nat)
    requires bandwidth > 0.0 && n > 0
    ensures bandwidth / n as real > 0.0 && (bandwidth / n as real) * n as real == bandwidth
  {
  }

  lemma TimeForSize(size: real, rate: real)
    requires rate > 0.0 && size >= 0.0
    ensures size / rate >= 0.0 && rate * (size / rate) == size && (size > 0.0 ==> size / rate > 0.0)
  {
  }

  lemma LessTime(rate: real, a: real, b: real)
    requires rate > 0.0 && a < b
    ensures rate * a < rate * b
  {
  }

  lemma LogGrows(bandwidth: real, log: seq<Segment>, s: Segment)
    requires LogOk(bandwidth, log, s.from) && Saturated(bandwidth, s)
    ensures LogOk(bandwidth, log + [s], s.to)
  {
  }

  lemma AccountsGoOn(bandwidth: real, active: seq<Active>, active': seq<Active>, finished: seq<Done>, log: seq<Segment>,
                     s: Segment, rest: set<Flow>, amount: real)
    requires LogOk(bandwidth, log, s.from) && s.from < s.to && AccountsOk(active, finished, s.from, log, rest)
    requires amount == s.rate * (s.to - s.from) && Drained(active, active', amount)
    requires forall a :: a in active ==> a.left > 0.0 && a.left - amount >= 0.0 && a.flow in s.members
    requires (forall d :: d in finished ==> d.flow !in s.members) && rest !! s.members
    ensures AccountsOk(active', finished, s.to, log + [s], rest)
  {
    forall a | a in active'
      ensures ActiveOk(log + [s], s.to, a)
    {
      var i :| 0 <= i < |active'| && active'[i] == a;
      assert active[i] in active;
      ActiveGoesOn(bandwidth, log, s.from, s, active[i]);
    }
    forall d | d in finished
      ensures DoneOk(log + [s], s.to, d)
    {
      DoneStays(log, s.from, s, d);
    }
  }

  /** An entry as it was before it gave up `amount`. */
  function Before(a: Active, amount: real): Active { Active(a.left + amount, a.flow) }

  lemma DrainedMember(h: seq<Active>, h': seq<Active>, amount: real, a: Active)
    requires Drained(h, h', amount)
    ensures a in h' <==> Before(a, amount) in h
  {
    if a in h' {
      var i :| 0 <= i < |h'| && h'[i] == a;
      assert h[i] == Before(a, amount);
    }
    if Before(a, amount) in h {
      var i :| 0 <= i < |h| && h[i] == Before(a, amount);
      assert h'[i] == a;
    }
  }

  lemma DrainedDistinct(h: seq<Active>, h': seq<Active>, amount: real)
    requires Drained(h, h', amount) && Distinct(h)
    ensures Distinct(h')
  {
    forall i, j | 0 <= i < j < |h'|
      ensures Differ(h', i, j)
    {
      assert Differ(h, i, j);
    }
  }

  /** Taking the root out before or after the shares leaves the same entries. */
  lemma DrainedWithout(active: seq<Active>, popped: seq<Active>, drained: seq<Active>, h: seq<Active>, x: Active,
                       amount: real)
    requires Without(popped, active, Before(x, amount))
    requires Drained(active, drained, amount) && Drained(popped, h, amount)
    ensures Without(h, drained, x)
  {
    DrainedDistinct(popped, h, amount);
    forall a
      ensures a in h <==> a != x && a in drained
      ensures a in h ==> a.flow != x.flow
    {
      DrainedMember(active, drained, amount, a);
      DrainedMember(popped, h, amount, a);
    }
  }

  lemma PlacesKept(active: seq<Active>, active': seq<Active>, finished: seq<Done>, sharing: set<Flow>, ended: set<Flow>,
                   rest: set<Flow>, all: set<Flow>, amount: real)
    requires PlacesOk(active, finished, sharing, ended, rest, all) && Drained(active, active', amount)
    ensures PlacesOk(active', finished, sharing, ended, rest, all)
  {
    forall a | a in active'
      ensures a.flow in sharing
    {
      var i :| 0 <= i < |active'| && active'[i] == a;
      assert active[i] in active;
    }
    DrainedDistinct(active, active', amount);
  }

  lemma EndedMember(finished: seq<Done>, ended: set<Flow>, d: Done)
    requires multiset(EndedFlows(finished)) == multiset(ended) && d in finished
    ensures d.flow in ended
  {
    var i :| 0 <= i < |finished| && finished[i] == d;
    assert EndedFlows(finished)[i] in multiset(EndedFlows(finished));
  }

  /** Time goes on: every active flow gets its share, and nobody is overserved. */
  lemma TimePasses(bandwidth: real, active: seq<Active>, active': seq<Active>, finished: seq<Done>, l: Ledger,
                   s: Segment, amount: real)
    requires Sim(bandwidth, active, finished, s.from, l) && s.from < s.to && s.members == l.sharing
    requires s.rate > 0.0 && s.rate * |active| as real == bandwidth && amount == s.rate * (s.to - s.from)
    requires forall a :: a in active ==> a.left > 0.0 && a.left - amount >= 0.0
    requires IsHeap(active') && Drained(active, active', amount)
    ensures Sim(bandwidth, active', finished, s.to, l.(log := l.log + [s]))
  {
    LogGrows(bandwidth, l.log, s);
    forall d | d in finished
      ensures d.flow !in s.members
    {
      EndedMember(finished, l.ended, d);
    }
    AccountsGoOn(bandwidth, active, active', finished, l.log, s, l.rest, amount);
    PlacesKept(active, active', finished, l.sharing, l.ended, l.rest, l.all, amount);
  }

  /** A flow with nothing left ends now. */
  lemma FlowEnds(bandwidth: real, active: seq<Active>, h: seq<Active>, finished: seq<Done>, now: real, l: Ledger,
                 x: Active)
    requires Sim(bandwidth, active, finished, now, l) && x in active && x.left == 0.0
    requires IsHeap(h) && Without(h, active, x) && |h| == |active| - 1
    ensures Sim(bandwidth, h, finished + [Done(x.flow, now)], now, Ended(l, x.flow))
  {
    var done := finished + [Done(x.flow, now)];
    assert ActiveOk(l.log, now, x);
    assert EndedFlows(done) == EndedFlows(finished) + [x.flow];
    assert multiset(l.ended + {x.flow}) == multiset(l.ended) + multiset{x.flow};
    forall d | d in done
      ensures DoneOk(l.log, now, d)
    {
      if d !in finished {
        assert d == Done(x.flow, now);
      }
    }
  }

  function Ended(l: Ledger, f: Flow): Ledger { l.(sharing := l.sharing - {f}, ended := l.ended + {f}) }

  function Started(l: Ledger, f: Flow): Ledger { l.(sharing := l.sharing + {f}, rest := l.rest - {f}) }

  /** The next flow starts now. */
  lemma FlowStarts(bandwidth: real, active: seq<Active>, h: seq<Active>, finished: seq<Done>, l: Ledger, f: Flow)
    requires Sim(bandwidth, active, finished, f.start, l) && f in l.rest && f.size >= 0.0
    requires IsHeap(h) && multiset(h) == multiset(active) + multiset{Active(f.size, f)} && |h| == |active| + 1
    ensures Sim(bandwidth, h, finished, f.start, Started(l, f))
  {
    Pushed(active, h, Active(f.size, f), l.sharing);
    ServedNone(l.log, f);
    assert ActiveOk(l.log, f.start, Active(f.size, f));
  }

  lemma IdleTime(bandwidth: real, finished: seq<Done>, now: real, later: real, l: Ledger)
    requires Sim(bandwidth, [], finished, now, l) && now <= later
    ensures Sim(bandwidth, [], finished, later, l)
  {
  }

  lemma LeastLeft(h: seq<Active>, amount: real)
    requires IsHeap(h) && h != [] && amount <= h[0].left
    ensures forall a :: a in h ==> a.left >= h[0].left && a.left - amount >= 0.0
  {
    forall a | a in h
      ensures a.left >= h[0].left
    {
      var i :| 0 <= i < |h| && h[i] == a;
      RootIsLeast(h, i);
    }
  }

  /** The ledger once time has come to `later`; nothing is logged when no time passes. */
  function Passed(l: Ledger, now: real, later: real, rate: real): Ledger {
    if now < later then l.(log := l.log + [Segment(now, later, rate, l.sharing)]) else l
  }

  lemma SharePassed(bandwidth: real, active: seq<Active>, drained: seq<Active>, finished: seq<Done>, l: Ledger,
                    now: real, later: real, rate: real, amount: real)
    requires active != [] && Sim(bandwidth, active, finished, now, l) && now <= later
    requires rate > 0.0 && rate * |active| as real == bandwidth && amount == rate * (later - now) <= active[0].left
    requires IsHeap(drained) && Drained(active, drained, amount)
    ensures Sim(bandwidth, drained, finished, later, Passed(l, now, later, rate))
  {
    LeastLeft(active, amount);
    ShareOfTime(rate, later - now);
    if later == now {
      assert amount == 0.0;
      assert forall i :: 0 <= i < |active| ==> drained[i] == active[i];
      assert drained == active;
    } else {
      TimePasses(bandwidth, active, drained, finished, l, Segment(now, later, rate, l.sharing), amount);
    }
  }

  lemma ShareOfTime(rate: real, time: real)
    requires rate > 0.0 && time >= 0.0
    ensures rate * time >= 0.0 && (time > 0.0 <==> rate * time > 0.0) && (time == 0.0 ==> rate * time == 0.0)
  {
  }

  lemma FirstIsFair(bandwidth: real, active: seq<Active>, finished: seq<Done>, now: real, l: Ledger)
    requires active != [] && Sim(bandwidth, active, finished, now, l)
    ensures active[0].left >= 0.0
  {
    assert ActiveOk(l.log, now, active[0]);
  }

  /** The smallest flow ends at `end`, when its shares have added up. */
  lemma FirstEnds(bandwidth: real, active: seq<Active>, popped: seq<Active>, h: seq<Active>, finished: seq<Done>,
                  now: real, l: Ledger, rate: real, end: real)
    requires active != [] && Sim(bandwidth, active, finished, now, l) && now <= end
    requires rate > 0.0 && rate * |active| as real == bandwidth && rate * (end - now) == active[0].left
    requires multiset(popped) == multiset(active) - multiset{active[0]} && |popped| == |active| - 1
    requires IsHeap(h) && Drained(popped, h, rate * (end - now))
    ensures var f := active[0].flow;
            Sim(bandwidth, h, finished + [Done(f, end)], end, Ended(Passed(l, now, end, rate), f))
  {
    var amount, x := rate * (end - now), active[0];
    var drained := seq(|active|, i requires 0 <= i < |active| => Active(active[i].left - amount, active[i].flow));
    DrainedHeap(active, drained, amount);
    SharePassed(bandwidth, active, drained, finished, l, now, end, rate, amount);
    Popped(active, popped, x);
    assert drained[0] == Active(0.0, x.flow) && Before(drained[0], amount) == x;
    DrainedWithout(active, popped, drained, h, drained[0], amount);
    FlowEnds(bandwidth, drained, h, finished, end, Passed(l, now, end, rate), drained[0]);
  }

  /** One turn of the inner loop: the smallest flow ends, or time reaches the next start
      (which is never if `ends`). */
  method Turn(bandwidth: real, active: seq<Active>, finished: seq<Done>, now: real, ends: bool, nextTime: real,
              ghost l: Ledger)
    returns (active': seq<Active>, finished': seq<Done>, now': real, ghost l': Ledger)
    requires bandwidth > 0.0 && active != [] && (ends || now < nextTime)
    requires Sim(bandwidth, active, finished, now, l)
    ensures Sim(bandwidth, active', finished', now', l') && l'.rest == l.rest && l'.all == l.all
    ensures now <= now' && (!ends ==> now' <= nextTime)
    ensures |active'| == |active| - 1 || (!ends && now' == nextTime && |active'| == |active|)
  {
    EqualShare(bandwidth, |active|);
    FirstIsFair(bandwidth, active, finished, now, l);
    var bandwidthPerFlow := bandwidth / |active| as real;
    var x := active[0];
    TimeForSize(x.left, bandwidthPerFlow);
    var estimatedEnd := now + x.left / bandwidthPerFlow;
    if ends || estimatedEnd <= nextTime {
      finished' := finished + [Done(x.flow, estimatedEnd)];
      var popped := HeapPop(active);
      now' := estimatedEnd;
      active' := Drain(popped, bandwidthPerFlow * (estimatedEnd - now));
      FirstEnds(bandwidth, active, popped, active', finished, now, l, bandwidthPerFlow, estimatedEnd);
      l' := Ended(Passed(l, now, estimatedEnd, bandwidthPerFlow), x.flow);
    } else {
      LessTime(bandwidthPerFlow, nextTime - now, estimatedEnd - now);
      now', finished' := nextTime, finished;
      active' := Drain(active, bandwidthPerFlow * (nextTime - now));
      SharePassed(bandwidth, active, active', finished, l, now, now', bandwidthPerFlow,
                  bandwidthPerFlow * (nextTime - now));
      l' := Passed(l, now, nextTime, bandwidthPerFlow);
    }
  }

  // ---- the whole simulation ----

  function InsertByStart(flows: seq<Flow>, f: Flow): (r: seq<Flow>)
    ensures multiset(r) == multiset(flows) + multiset{f}
  {
    if flows == [] || f.start <= flows[0].start then [f] + flows
    else
      assert flows == [flows[0]] + flows[1..];
      [flows[0]] + InsertByStart(flows[1..], f)
  }

  /** sorted by start time; flows of equal start keep their order */
  function SortByStart(flows: seq<Flow>): (r: seq<Flow>)
    ensures multiset(r) == multiset(flows)
  {
    if flows == [] then []
    else
      assert flows == [flows[0]] + flows[1..];
      InsertByStart(SortByStart(flows[1..]), flows[0])
  }

  predicate ByStart(flows: seq<Flow>) { forall i, j :: 0 <= i < j < |flows| ==> flows[i].start <= flows[j].start }

  lemma {:induction false} InsertSorts(flows: seq<Flow>, f: Flow)
    requires ByStart(flows)
    ensures ByStart(InsertByStart(flows, f))
  {
    if flows != [] && f.start > flows[0].start {
      InsertSorts(flows[1..], f);
      var r := InsertByStart(flows[1..], f);
      forall i | 0 <= i < |r|
        ensures flows[0].start <= r[i].start
      {
        assert r[i] in multiset(r);
        assert flows[1..] == [] || forall j :: 0 <= j < |flows[1..]| ==> flows[1..][j] == flows[j + 1];
      }
    }
  }

  lemma {:induction false} SortSorts(flows: seq<Flow>)
    ensures ByStart(SortByStart(flows))
  {
    if flows != [] {
      SortSorts(flows[1..]);
      InsertSorts(SortByStart(flows[1..]), flows[0]);
    }
  }

  /** The records still to come. */
  ghost predicate StillToCome(remaining: seq<Flow>, rest: set<Flow>, now: real) {
    && multiset(remaining) == multiset(rest) && ByStart(remaining)
    && forall f :: f in rest ==> f.start >= now && f.size >= 0.0
  }

  /** The first of the records still to come. */
  lemma TakeNext(remaining: seq<Flow>, rest: set<Flow>, now: real)
    requires remaining != [] && StillToCome(remaining, rest, now)
    ensures remaining[0] in rest && now <= remaining[0].start && remaining[0].size >= 0.0
    ensures StillToCome(remaining[1..], rest - {remaining[0]}, remaining[0].start)
  {
    var f := remaining[0];
    assert remaining == [f] + remaining[1..];
    assert f in multiset(remaining);
    assert multiset(rest - {f}) == multiset(rest) - multiset{f};
    forall g | g in rest
      ensures g.start >= f.start
    {
      assert g in multiset(remaining);
      var i :| 0 <= i < |remaining| && remaining[i] == g;
    }
  }

  /** The inner loop: flows share the bandwidth until the next start, or until all have ended. */
  method ShareUntil(bandwidth: real, active0: seq<Active>, finished0: seq<Done>, now0: real, more: bool, nextTime: real,
                    ghost l0: Ledger)
    returns (active: seq<Active>, finished: seq<Done>, now: real, ghost l: Ledger)
    requires bandwidth > 0.0 && (more ==> now0 <= nextTime)
    requires Sim(bandwidth, active0, finished0, now0, l0)
    ensures Sim(bandwidth, active, finished, if more then nextTime else now, l) && l.rest == l0.rest && l.all == l0.all
    ensures active == [] || (more && now == nextTime)
    ensures now0 <= now && (more ==> now <= nextTime)
  {
    active, finished, now, l := active0, finished0, now0, l0;
    while active != [] && (!more || now < nextTime)
      invariant now0 <= now && (more ==> now <= nextTime)
      invariant Sim(bandwidth, active, finished, now, l) && l.rest == l0.rest && l.all == l0.all
      decreases |active|, if more && now < nextTime then 1 else 0
    {
      active, finished, now, l := Turn(bandwidth, active, finished, now, !more, nextTime, l);
    }
    if more && now < nextTime {
      IdleTime(bandwidth, finished, now, nextTime, l);
    }
  }

  /** The next flow joins those that share. */
  method Arrive(bandwidth: real, active: seq<Active>, ghost finished: seq<Done>, nextFlow: Flow, ghost l: Ledger)
    returns (h: seq<Active>)
    requires Sim(bandwidth, active, finished, nextFlow.start, l) && nextFlow in l.rest && nextFlow.size >= 0.0
    ensures Sim(bandwidth, h, finished, nextFlow.start, Started(l, nextFlow))
  {
    h := HeapPush(active, Active(nextFlow.size, nextFlow));
    FlowStarts(bandwidth, active, h, finished, l, nextFlow);
  }

  lemma AllDone(bandwidth: real, finished: seq<Done>, now: real, l: Ledger, flows: set<Flow>)
    returns (log: seq<Segment>)
    requires Between(bandwidth, [], [], finished, now, l) && l.all == flows
    ensures log == l.log && multiset(EndedFlows(finished)) == multiset(flows)
    ensures forall d :: d in finished ==> DoneOk(log, now, d)
    ensures LogOk(bandwidth, log, now) && MembersIn(log, flows)
    ensures Capacity(bandwidth, log) == SizeSum(flows)
  {
    log := l.log;
    assert l.sharing == {};
    assert |multiset(l.rest)| == 0;
    assert l.ended == l.all;
    EverythingServed(bandwidth, finished, l.log, now, l.all);
  }

  /** The state between two arrivals. */
  ghost predicate Between(bandwidth: real, remaining: seq<Flow>, active: seq<Active>, finished: seq<Done>, now: real,
                          l: Ledger) {
    StillToCome(remaining, l.rest, now) && Sim(bandwidth, active, finished, now, l)
  }

  /** One turn of the outer loop. */
  method Round(bandwidth: real, remaining: seq<Flow>, active: seq<Active>, finished: seq<Done>, now: real,
               ghost l: Ledger)
    returns (remaining': seq<Flow>, active': seq<Active>, finished': seq<Done>, now': real, ghost l': Ledger)
    requires bandwidth > 0.0 && Between(bandwidth, remaining, active, finished, now, l)
    requires remaining != [] || active != []
    ensures Between(bandwidth, remaining', active', finished', now', l') && l'.all == l.all
    ensures if remaining == [] then remaining' == [] && active' == [] else |remaining'| == |remaining| - 1
  {
    if remaining == [] {
      remaining' := [];
      active', finished', now', l' := ShareUntil(bandwidth, active, finished, now, false, now, l);
    } else {
      TakeNext(remaining, l.rest, now);
      var nextFlow := remaining[0];
      remaining' := remaining[1..];
      active', finished', now', l' := ShareUntil(bandwidth, active, finished, now, true, nextFlow.start, l);
      if now' < nextFlow.start {
        now' := nextFlow.start;
      }
      active' := Arrive(bandwidth, active', finished', nextFlow, l');
      l' := Started(l', nextFlow);
    }
  }

  /** getEndTimes.  Records of equal start and size differ in their number; flows start no
      earlier than time zero and sizes are not negative. */
  method GetEndTimes(records: seq<Flow>, bandwidth: real, ghost flows: set<Flow>)
    returns (finished: seq<Done>, ghost log: seq<Segment>, ghost end: real)
    requires bandwidth > 0.0 && multiset(records) == multiset(flows)
    requires forall f :: f in flows ==> f.start >= 0.0 && f.size >= 0.0
    ensures multiset(EndedFlows(finished)) == multiset(flows)
    ensures forall d :: d in finished ==> DoneOk(log, end, d)
    ensures LogOk(bandwidth, log, end) && MembersIn(log, flows)
    ensures Capacity(bandwidth, log) == SizeSum(flows)
  {
    var remaining := SortByStart(records);
    SortSorts(records);
    var active: seq<Active> := [];
    finished := [];
    var now := 0.0;
    ghost var l := Ledger([], {}, {}, flows, flows);
    StartsEmpty(bandwidth, remaining, flows);
    while remaining != [] || active != []
      invariant Between(bandwidth, remaining, active, finished, now, l) && l.all == flows
      decreases |remaining|, |active|
    {
      remaining, active, finished, now, l := Round(bandwidth, remaining, active, finished, now, l);
    }
    end := now;
    log := AllDone(bandwidth, finished, now, l, flows);
  }

  lemma StartsEmpty(bandwidth: real, remaining: seq<Flow>, flows: set<Flow>)
    requires multiset(remaining) == multiset(flows) && ByStart(remaining)
    requires forall f :: f in flows ==> f.start >= 0.0 && f.size >= 0.0
    ensures Between(bandwidth, remaining, [], [], 0.0, Ledger([], {}, {}, flows, flows))
  {
    assert EndedFlows([]) == [];
  }

  // ---- conservation ----

  ghost function Total(amount: Flow -> real, flows: set<Flow>): real {
    if flows == {} then 0.0 else var f :| f in flows; amount(f) + Total(amount, flows - {f})
  }

  lemma {:induction false} TotalTake(amount: Flow -> real, flows: set<Flow>, f: Flow)
    requires f in flows
    ensures Total(amount, flows) == amount(f) + Total(amount, flows - {f})
  {
    var g :| g in flows && Total(amount, flows) == amount(g) + Total(amount, flows - {g});
    if g != f {
      TotalTake(amount, flows - {g}, f);
      TotalTake(amount, flows - {f}, g);
      assert flows - {g} - {f} == flows - {f} - {g};
    }
  }

  lemma {:induction false} TotalSame(amount: Flow -> real, other: Flow -> real, flows: set<Flow>)
    requires forall f :: f in flows ==> amount(f) == other(f)
    ensures Total(amount, flows) == Total(other, flows)
  {
    if flows != {} {
      var f :| f in flows && Total(amount, flows) == amount(f) + Total(amount, flows - {f});
      TotalSame(amount, other, flows - {f});
      TotalTake(other, flows, f);
    }
  }

  function Copies(n: nat, share: real): real { if n == 0 then 0.0 else Copies(n - 1, share) + share }

  lemma {:induction false} CopiesIsProduct(n: nat, share: real)
    ensures Copies(n, share) == n as real * share
  {
    if n > 0 {
      CopiesIsProduct(n - 1, share);
      assert n as real * share == (n - 1) as real * share + share;
    }
  }

  predicate Served1(g: Flow -> real, h: Flow -> real, members: set<Flow>, share: real, f: Flow) {
    h(f) == g(f) + if f in members then share else 0.0
  }

  /** What the members get, each the same share, is their number of shares. */
  lemma {:induction false} TotalGrows(g: Flow -> real, h: Flow -> real, members: set<Flow>, share: real,
                                      flows: set<Flow>)
    requires forall f :: f in flows ==> Served1(g, h, members, share, f)
    ensures Total(h, flows) == Total(g, flows) + Copies(|members * flows|, share)
  {
    if flows == {} {
      assert members * flows == {};
    } else {
      var f :| f in flows && Total(h, flows) == h(f) + Total(h, flows - {f});
      TotalTake(g, flows, f);
      TotalGrows(g, h, members, share, flows - {f});
      assert Served1(g, h, members, share, f);
      if f in members {
        assert members * flows == members * (flows - {f}) + {f};
      } else {
        assert members * flows == members * (flows - {f});
      }
    }
  }

  /** What has been served in all. */
  ghost function ServedSum(log: seq<Segment>, flows: set<Flow>): real { Total(f => Served(log, f), flows) }

  ghost function SizeSum(flows: set<Flow>): real { Total((f: Flow) => f.size, flows) }

  function Share(s: Segment): real { (s.to - s.from) * s.rate }

  lemma ServedNext(log: seq<Segment>, s: Segment, f: Flow)
    ensures Served(log + [s], f) == Served(log, f) + if f in s.members then Share(s) else 0.0
  {
    assert (log + [s])[..|log|] == log;
  }

  lemma SegmentServes(log: seq<Segment>, s: Segment, flows: set<Flow>)
    requires s.members <= flows
    ensures ServedSum(log + [s], flows) == ServedSum(log, flows) + Copies(|s.members|, Share(s))
  {
    var before, after := (f: Flow) => Served(log, f), (f: Flow) => Served(log + [s], f);
    forall f | f in flows
      ensures Served1(before, after, s.members, Share(s), f)
    {
      ServedNext(log, s, f);
    }
    TotalGrows(before, after, s.members, Share(s), flows);
    assert s.members * flows == s.members;
    TotalSame(before, f => Served(log, f), flows);
    TotalSame(after, f => Served(log + [s], f), flows);
  }

  /** A stretch serves its members together what the bandwidth allows. */
  lemma FullShare(bandwidth: real, s: Segment)
    requires s.rate * |s.members| as real == bandwidth
    ensures Copies(|s.members|, Share(s)) == bandwidth * (s.to - s.from)
  {
    CopiesIsProduct(|s.members|, Share(s));
    Regroup(|s.members| as real, s.to - s.from, s.rate);
  }

  lemma Regroup(n: real, t: real, r: real)
    ensures n * (t * r) == (r * n) * t
  {
  }

  ghost predicate FullRate(bandwidth: real, log: seq<Segment>) {
    forall k :: 0 <= k < |log| ==> log[k].rate * |log[k].members| as real == bandwidth
  }

  /** Bandwidth times busy time, stretch by stretch. */
  function Capacity(bandwidth: real, log: seq<Segment>): real {
    if log == [] then 0.0
    else Capacity(bandwidth, log[..|log| - 1]) + bandwidth * (log[|log| - 1].to - log[|log| - 1].from)
  }

  lemma {:induction false} CapacityIsProduct(bandwidth: real, log: seq<Segment>)
    ensures Capacity(bandwidth, log) == bandwidth * BusyTime(log)
  {
    if log != [] { CapacityIsProduct(bandwidth, log[..|log| - 1]); }
  }

  lemma {:induction false} ServedIsCapacity(bandwidth: real, log: seq<Segment>, flows: set<Flow>)
    requires FullRate(bandwidth, log) && MembersIn(log, flows)
    ensures ServedSum(log, flows) == Capacity(bandwidth, log)
  {
    if log == [] {
      TotalSame(f => Served(log, f), f => 0.0, flows);
      TotalOfNothing(flows);
    } else {
      ServedIsCapacity(bandwidth, log[..|log| - 1], flows);
      SegmentServes(log[..|log| - 1], log[|log| - 1], flows);
      FullShare(bandwidth, log[|log| - 1]);
      assert log == log[..|log| - 1] + [log[|log| - 1]];
    }
  }

  lemma {:induction false} TotalOfNothing(flows: set<Flow>)
    ensures Total(f => 0.0, flows) == 0.0
  {
    if flows != {} {
      var zero := (f: Flow) => 0.0;
      var f :| f in flows && Total(zero, flows) == zero(f) + Total(zero, flows - {f});
      TotalOfNothing(flows - {f});
    }
  }

  /** The capacity of the busy stretches is the total size of the flows. */
  lemma EverythingServed(bandwidth: real, finished: seq<Done>, log: seq<Segment>, end: real, flows: set<Flow>)
    requires LogOk(bandwidth, log, end) && MembersIn(log, flows)
    requires multiset(EndedFlows(finished)) == multiset(flows) && forall d :: d in finished ==> DoneOk(log, end, d)
    ensures Capacity(bandwidth, log) == SizeSum(flows)
  {
    forall f | f in flows
      ensures Served(log, f) == f.size
    {
      assert f in multiset(EndedFlows(finished));
      var i :| 0 <= i < |finished| && EndedFlows(finished)[i] == f;
      assert finished[i] in finished;
    }
    TotalSame(f => Served(log, f), (f: Flow) => f.size, flows);
    ServedIsCapacity(bandwidth, log, flows);
  }

  /** Bandwidth times busy time is the total size of the flows. */
  lemma Conservation(bandwidth: real, finished: seq<Done>, log: seq<Segment>, end: real, flows: set<Flow>)
    requires LogOk(bandwidth, log, end) && MembersIn(log, flows)
    requires multiset(EndedFlows(finished)) == multiset(flows) && forall d :: d in finished ==> DoneOk(log, end, d)
    ensures bandwidth * BusyTime(log) == SizeSum(flows)
  {
    EverythingServed(bandwidth, finished, log, end, flows);
    CapacityIsProduct(bandwidth, log);
  }
}

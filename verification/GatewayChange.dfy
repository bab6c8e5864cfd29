/** A route's gateway changes while the cache of lookups is kept: which cached answers are
    still those of a fresh scan (routeChanged in IFlowRoutingTable.cc does nothing for the
    gateway field). */
module GatewayChange {
  import opened Wrappers
  import opened Bits
  import opened RouteOrder
  import opened Ecmp
  import opened EcmpChoice

  function Regated(e: Entry, h: Handle, g: Address): Entry {
    if e.handle == h then e.(route := e.route.(gateway := g)) else e
  }

  /** The entries once route `h` has gateway `g`. */
  function Regate(table: seq<Entry>, h: Handle, g: Address): (r: seq<Entry>)
    ensures |r| == |table| && forall i :: 0 <= i < |r| ==> r[i] == Regated(table[i], h, g)
  {
    seq(|table|, i requires 0 <= i < |table| => Regated(table[i], h, g))
  }

  /** The scan does not look at gateways. */
  lemma {:induction false} CollectRegated(table: seq<Entry>, dest: Address, best: seq<Entry>, h: Handle, g: Address)
    ensures Collect(Regate(table, h, g), dest, Regate(best, h, g)) == Regate(Collect(table, dest, best), h, g)
  {
    if table != [] {
      var best' := if Candidate(dest, table[0]) then best + [table[0]] else best;
      assert Regate(table, h, g)[1..] == Regate(table[1..], h, g);
      assert Regate(best + [table[0]], h, g) == Regate(best, h, g) + [Regated(table[0], h, g)];
      CollectRegated(table[1..], dest, best', h, g);
    }
  }

  predicate Handles(best: seq<Entry>, h: Handle) { exists e :: e in best && e.handle == h }

  /** No handle twice. */
  predicate OneEntryEach(table: seq<Entry>) {
    forall d, e :: d in table && e in table && d.handle == e.handle ==> d == e
  }

  /** Among the changed gateways of `best` the flow takes that of route `c`. */
  ghost predicate StillTaken(best: seq<Entry>, c: Handle, h: Handle, g: Address, flow: FlowBin, seed: Word)
    requires |flow| < WORD
  {
    exists e :: e in best && e.handle == c
                && FlowTakes(Gateways(Regate(best, h, g)), flow, seed, Regated(e, h, g).route.gateway)
  }

  lemma InRegate(best: seq<Entry>, h: Handle, g: Address, e: Entry)
    ensures e in best ==> Regated(e, h, g) in Regate(best, h, g)
  {
    if e in best {
      var i :| 0 <= i < |best| && best[i] == e;
      assert Regate(best, h, g)[i] == Regated(e, h, g);
    }
  }

  /** A cached answer survives the change exactly when the scan of its flow does not collect
      the changed route or the flow still takes the answer's gateway. */
  lemma AnswerSurvives(table: seq<Entry>, dest: Address, flow: FlowBin, seed: Word, c: Handle, h: Handle, g: Address)
    requires |flow| < WORD && FreshAnswer(table, dest, flow, seed, Some(c))
    ensures FreshAnswer(Regate(table, h, g), dest, flow, seed, Some(c))
       <==> !Handles(Collect(table, dest, []), h) || StillTaken(Collect(table, dest, []), c, h, g, flow, seed)
  {
    var best := Collect(table, dest, []);
    CollectRegated(table, dest, [], h, g);
    assert Regate([], h, g) == [];
    assert Collect(Regate(table, h, g), dest, []) == Regate(best, h, g);
    if !Handles(best, h) {
      assert Regate(best, h, g) == best;
    } else {
      RegatedAnswers(best, flow, seed, c, h, g);
    }
  }

  lemma RegatedAnswers(best: seq<Entry>, flow: FlowBin, seed: Word, c: Handle, h: Handle, g: Address)
    requires |flow| < WORD
    ensures StillTaken(best, c, h, g, flow, seed)
       <==> exists e' :: e' in Regate(best, h, g) && e'.handle == c
                         && FlowTakes(Gateways(Regate(best, h, g)), flow, seed, e'.route.gateway)
  {
    var gs := Gateways(Regate(best, h, g));
    if e :| e in best && e.handle == c && FlowTakes(gs, flow, seed, Regated(e, h, g).route.gateway) {
      InRegate(best, h, g, e);
    }
    if e' :| e' in Regate(best, h, g) && e'.handle == c && FlowTakes(gs, flow, seed, e'.route.gateway) {
      var i :| 0 <= i < |best| && Regate(best, h, g)[i] == e';
      assert best[i] in best && Regated(best[i], h, g) == e';
    }
  }

  // ---- equal-cost routes with gateways of their own ----

  /** The gateways of the other routes. */
  ghost function OtherGateways(best: seq<Entry>, h: Handle): set<Address> {
    set e | e in best && e.handle != h :: e.route.gateway
  }

  /** The changed gateway passes neither that of the cached route nor, if it is the cached
      route that changes, that of any other. */
  ghost predicate PassesNone(best: seq<Entry>, cached: Entry, changed: Entry, g: Address) {
    var a := changed.route.gateway;
    if cached == changed then
      forall y :: y in OtherGateways(best, changed.handle) ==> (y < a <==> y < g)
    else a < cached.route.gateway <==> g < cached.route.gateway
  }

  /** Neither the old nor the new gateway of the changed route is that of another one. */
  ghost predicate OwnGateway(best: seq<Entry>, changed: Entry, g: Address) {
    changed.route.gateway !in OtherGateways(best, changed.handle) && g !in OtherGateways(best, changed.handle)
  }

  lemma SmallerWith(o: set<Address>, a: Address, x: Address)
    requires a !in o
    ensures |Smaller(o + {a}, x)| == |Smaller(o, x)| + if a < x then 1 else 0
  {
    assert Smaller(o + {a}, x) == Smaller(o, x) + if a < x then {a} else {};
  }

  /** Two thresholds have as many gateways below them exactly when none lies between. */
  lemma SameBelow(o: set<Address>, a: Address, g: Address)
    requires a !in o && g !in o
    ensures |Smaller(o, a)| == |Smaller(o, g)| <==> forall y :: y in o ==> (y < a <==> y < g)
  {
    if a <= g {
      BelowGrows(o, a, g);
    } else {
      BelowGrows(o, g, a);
    }
  }

  lemma BelowGrows(o: set<Address>, a: Address, g: Address)
    requires a <= g
    ensures |Smaller(o, a)| == |Smaller(o, g)| <==> forall y :: y in o ==> (y < a <==> y < g)
  {
    var s, t := Smaller(o, a), Smaller(o, g);
    assert s <= t;
    assert t == s + (t - s);
    if forall y :: y in o ==> (y < a <==> y < g) {
      assert s == t;
    } else {
      var y :| y in o && !(y < a <==> y < g);
      assert y in t - s;
    }
  }

  lemma GatewaysSplit(best: seq<Entry>, changed: Entry, g: Address)
    requires changed in best && OneEntryEach(best)
    ensures Gateways(best) == OtherGateways(best, changed.handle) + {changed.route.gateway}
    ensures Gateways(Regate(best, changed.handle, g)) == OtherGateways(best, changed.handle) + {g}
  {
    var h, r := changed.handle, Regate(best, changed.handle, g);
    forall x
      ensures x in Gateways(r) <==> x in OtherGateways(best, h) || x == g
    {
      if x in Gateways(r) {
        var e :| e in r && e.route.gateway == x;
        var i :| 0 <= i < |r| && r[i] == e;
        assert best[i] in best && e == Regated(best[i], h, g);
      }
      if x in OtherGateways(best, h) {
        var e :| e in best && e.handle != h && e.route.gateway == x;
        InRegate(best, h, g, e);
      }
      if x == g { InRegate(best, h, g, changed); }
    }
  }

  lemma TakenByHandle(best: seq<Entry>, flow: FlowBin, seed: Word, cached: Entry, h: Handle, g: Address)
    requires |flow| < WORD && OneEntryEach(best) && cached in best
    ensures StillTaken(best, cached.handle, h, g, flow, seed)
       <==> FlowTakes(Gateways(Regate(best, h, g)), flow, seed, Regated(cached, h, g).route.gateway)
  {
  }

  /** How many gateways are smaller, before and after. */
  lemma RankIffPassesNone(best: seq<Entry>, cached: Entry, changed: Entry, g: Address, o: set<Address>)
    requires OneEntryEach(best) && cached in best && changed in best && OwnGateway(best, changed, g)
    requires o == OtherGateways(best, changed.handle)
    ensures |Smaller(o + {changed.route.gateway}, cached.route.gateway)|
         == |Smaller(o + {g}, Regated(cached, changed.handle, g).route.gateway)|
       <==> PassesNone(best, cached, changed, g)
  {
    var a, x := changed.route.gateway, cached.route.gateway;
    var x' := Regated(cached, changed.handle, g).route.gateway;
    SmallerWith(o, a, x);
    SmallerWith(o, g, x');
    if cached == changed {
      SameBelow(o, a, g);
    } else {
      assert cached.handle != changed.handle && x' == x;
    }
  }

  lemma SameFlowIndex(o: set<Address>, a: Address, g: Address, flow: FlowBin, seed: Word, x: Address, x': Address)
    requires |flow| < WORD && a !in o && g !in o && FlowTakes(o + {a}, flow, seed, x) && x' in o + {g}
    ensures FlowTakes(o + {g}, flow, seed, x') <==> |Smaller(o + {a}, x)| == |Smaller(o + {g}, x')|
  {
    assert |o + {a}| == |o| + 1 == |o + {g}|;
  }

  /** Where the changed route has a gateway of its own, before and after, the flow still
      takes the cached route exactly when the change passes no other gateway. */
  lemma SurvivesIffPassesNone(best: seq<Entry>, flow: FlowBin, seed: Word, cached: Entry, changed: Entry, g: Address)
    requires |flow| < WORD && OneEntryEach(best) && cached in best && changed in best
    requires FlowTakes(Gateways(best), flow, seed, cached.route.gateway) && OwnGateway(best, changed, g)
    ensures StillTaken(best, cached.handle, changed.handle, g, flow, seed) <==> PassesNone(best, cached, changed, g)
  {
    var o := OtherGateways(best, changed.handle);
    GatewaysSplit(best, changed, g);
    TakenByHandle(best, flow, seed, cached, changed.handle, g);
    InRegate(best, changed.handle, g, cached);
    SameFlowIndex(o, changed.route.gateway, g, flow, seed, cached.route.gateway,
                  Regated(cached, changed.handle, g).route.gateway);
    RankIffPassesNone(best, cached, changed, g, o);
  }

  // ---- a cached answer that goes stale ----

  /** A route to 128.0.0.0/1. */
  function HalfRoute(g: Address): Route { Route(0x8000_0000, 0x8000_0000, g, 0, 0, 1, false, true) }

  lemma TwoCollected(table: seq<Entry>)
    requires table == [Entry(0, HalfRoute(1)), Entry(1, HalfRoute(2))]
    ensures Collect(table, 0x8000_0000, []) == table
  {
    var a, b, d := table[0], table[1], 0x8000_0000;
    assert Candidate(d, a) && Candidate(d, b);
    assert table[1..] == [b] && [b][1..] == [] && [] + [a] == [a] && [a] + [b] == table;
    assert Collect([b], d, [a]) == Collect([], d, table) == table;
  }

  lemma ThreePassesTwo(table: seq<Entry>, cached: Entry)
    requires table == [Entry(0, HalfRoute(1)), Entry(1, HalfRoute(2))] && cached in table
    ensures OneEntryEach(table) && OwnGateway(table, table[0], 3) && !PassesNone(table, cached, table[0], 3)
  {
    assert table[1] in table;
    assert 2 in OtherGateways(table, 0);
  }

  /** Two equal-cost routes by gateways 1 and 2: when the first gateway becomes 3 no cached
      answer survives, whichever route a flow takes. */
  lemma NothingSurvives(table: seq<Entry>, flow: FlowBin, seed: Word, c: Handle)
    requires |flow| < WORD && table == [Entry(0, HalfRoute(1)), Entry(1, HalfRoute(2))]
    requires FreshAnswer(table, 0x8000_0000, flow, seed, Some(c))
    ensures !FreshAnswer(Regate(table, 0, 3), 0x8000_0000, flow, seed, Some(c))
  {
    TwoCollected(table);
    var cached := Answered(table, 0x8000_0000, flow, seed, c);
    AnswerSurvives(table, 0x8000_0000, flow, seed, c, 0, 3);
    assert table[0] in table;
    ThreePassesTwo(table, cached);
    SurvivesIffPassesNone(table, flow, seed, cached, table[0], 3);
  }
}

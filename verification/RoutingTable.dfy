/** The route table with its cache of lookups (IFlowRoutingTable.cc, ECMPRoutingTable.cc). */
module RoutingTables {
  import opened Wrappers
  import opened Bits
  import opened RouteOrder
  import opened Ecmp
  import opened EcmpChoice
  import opened GatewayChange

  /** The interface of a route that has none. */
  const NO_INTERFACE: nat := 0

  /** The table as the lookup reads it. */
  function View(routes: seq<Handle>, data: map<Handle, Route>): seq<Entry>
    requires Known(routes, data)
  {
    seq(|routes|, i requires 0 <= i < |routes| && Known(routes, data) => Entry(routes[i], data[routes[i]]))
  }

  lemma ViewSorted(routes: seq<Handle>, data: map<Handle, Route>)
    requires TableOk(routes, data)
    ensures SortedTable(View(routes, data))
  {
    var t := View(routes, data);
    forall i, j | 0 <= i < j < |t|
      ensures InOrder(t[i], t[j])
    {
      assert AtMost(data, routes[i], routes[j]);
    }
  }

  ghost predicate CachedOk(table: seq<Entry>, flow: FlowBin, h: Handle, seed: Word) {
    |flow| < WORD && FreshAnswer(table, DestOf(flow), flow, seed, Some(h))
  }

  /** Every cached route is what a fresh scan may answer. */
  ghost predicate CacheOk(table: seq<Entry>, cache: map<FlowBin, Handle>, seed: Word) {
    forall f {:trigger cache[f]} :: f in cache ==> CachedOk(table, f, cache[f], seed)
  }

  ghost predicate Ok(routes: seq<Handle>, data: map<Handle, Route>, cache: map<FlowBin, Handle>, seed: Word) {
    TableOk(routes, data) && CacheOk(View(routes, data), cache, seed)
  }

  /** A cached route is in the table: nothing the cache refers to is gone. */
  lemma CachedInTable(routes: seq<Handle>, data: map<Handle, Route>, flow: FlowBin, h: Handle, seed: Word)
    requires Known(routes, data) && CachedOk(View(routes, data), flow, h, seed)
    ensures h in routes && data[h].valid
  {
    var e := Answered(View(routes, data), DestOf(flow), flow, seed, h);
    CollectedValid(View(routes, data), DestOf(flow), []);
  }

  lemma {:induction false} CollectedValid(table: seq<Entry>, dest: Address, best: seq<Entry>)
    requires forall e :: e in best ==> Candidate(dest, e)
    ensures forall e :: e in Collect(table, dest, best) ==> Candidate(dest, e)
  {
    if table != [] {
      CollectedValid(table[1..], dest, if Candidate(dest, table[0]) then best + [table[0]] else best);
    }
  }

  /** What a new route must satisfy. */
  predicate Acceptable(r: Route) {
    && ValidNetmask(r.netmask) && (r.netmask != 0 ==> And(r.destination, r.netmask) != 0)
    && And(r.destination, Not(r.netmask)) == 0 && r.iface != NO_INTERFACE
  }

  /** All but one of the handles. */
  function Others(routes: seq<Handle>, h: Handle): seq<Handle> { Kept(routes, (set x | x in routes) - {h}) }

  /** A default route: no netmask, valid. */
  predicate IsDefault(r: Route) { r.netmask == 0 && r.valid }

  /** The last valid default route, if any. */
  ghost predicate DefaultIs(routes: seq<Handle>, data: map<Handle, Route>, d: Option<Handle>)
    requires Known(routes, data)
  {
    match d
    case None => forall h :: h in routes ==> !IsDefault(data[h])
    case Some(h) =>
      exists i :: 0 <= i < |routes| && routes[i] == h && IsDefault(data[h])
                  && forall j :: i < j < |routes| ==> !IsDefault(data[routes[j]])
  }

  function Without(routes: seq<Handle>, d: Option<Handle>): seq<Handle> {
    match d
    case None => routes
    case Some(h) => Others(routes, h)
  }

  function Dropped(data: map<Handle, Route>, d: Option<Handle>): map<Handle, Route> {
    match d
    case None => data
    case Some(h) => data - {h}
  }

  /** Taking the only occurrence of a handle out. */
  lemma OthersIsErase(routes: seq<Handle>, h: Handle, i: nat)
    requires NoDuplicates(routes) && i < |routes| && routes[i] == h
    ensures Others(routes, h) == routes[..i] + routes[i + 1..]
  {
    var keep := (set x | x in routes) - {h};
    forall j | 0 <= j < |routes| && j != i
      ensures routes[j] in keep
    {
      assert if j < i then Differ(routes, j, i) else Differ(routes, i, j);
    }
    ErasedMiddle(routes, routes[..i], h, routes[i + 1..], keep);
  }

  lemma ErasedMiddle(routes: seq<Handle>, a: seq<Handle>, h: Handle, b: seq<Handle>, keep: set<Handle>)
    requires routes == a + [h] + b && h !in keep && (forall x :: x in a || x in b ==> x in keep)
    ensures Kept(routes, keep) == a + b
  {
    KeptSplits(a + [h], b, keep);
    KeptNext(a, h, keep);
    KeptAll(a, keep);
    KeptAll(b, keep);
  }

  lemma KeptNext(a: seq<Handle>, h: Handle, keep: set<Handle>)
    ensures Kept(a + [h], keep) == if h in keep then Kept(a, keep) + [h] else Kept(a, keep)
  {
    KeptSplits(a, [h], keep);
    assert [h][1..] == [];
  }

  lemma {:induction false} KeptSplits(a: seq<Handle>, b: seq<Handle>, keep: set<Handle>)
    ensures Kept(a + b, keep) == Kept(a, keep) + Kept(b, keep)
  {
    if a == [] {
      assert a + b == b;
    } else {
      KeptSplits(a[1..], b, keep);
      assert (a + b)[1..] == a[1..] + b;
    }
  }

  lemma {:induction false} KeptAll(a: seq<Handle>, keep: set<Handle>)
    requires forall h :: h in a ==> h in keep
    ensures Kept(a, keep) == a
  {
    if a != [] { KeptAll(a[1..], keep); }
  }

  /** A lookup in a table in order answers a longest match unless its scan overruns. */
  lemma LookupIsLongest(routes: seq<Handle>, data: map<Handle, Route>, dest: Address, flow: FlowBin, seed: Word,
                        answer: Option<Handle>)
    requires TableOk(routes, data) && |flow| < WORD && FreshAnswer(View(routes, data), dest, flow, seed, answer)
    requires !Overruns(View(routes, data), dest)
    ensures LongestAnswer(View(routes, data), dest, flow, seed, answer)
  {
    ViewSorted(routes, data);
    FreshIsLongest(View(routes, data), dest, flow, seed, answer);
  }

  /** Two tables in order with the same routes send a flow to the same gateway. */
  lemma SameRoutesSameGateway(routes: seq<Handle>, data: map<Handle, Route>, routes': seq<Handle>,
                              data': map<Handle, Route>, dest: Address, flow: FlowBin, seed: Word,
                              h: Handle, h': Handle)
    requires TableOk(routes, data) && TableOk(routes', data') && |flow| < WORD
    requires Routes(View(routes, data)) == Routes(View(routes', data'))
    requires NoSharedDestination(View(routes, data)) && NoSharedDestination(View(routes', data'))
    requires FreshAnswer(View(routes, data), dest, flow, seed, Some(h))
    requires FreshAnswer(View(routes', data'), dest, flow, seed, Some(h'))
    ensures h in routes && h' in routes' && data[h].gateway == data'[h'].gateway
  {
    ViewSorted(routes, data);
    ViewSorted(routes', data');
    var e, e' := OrderDoesNotMatter(View(routes, data), View(routes', data'), dest, flow, seed, h, h');
  }

  class RoutingTable {
    var routes: seq<Handle>
    var data: map<Handle, Route>
    var routingCache: map<FlowBin, Handle>
    const seed: Word

    ghost predicate Valid()
      reads this
    {
      Ok(routes, data, routingCache, seed)
    }

    constructor (s: Word)
      ensures Valid() && routes == [] && data == map[] && routingCache == map[] && seed == s
    {
      routes, data, routingCache, seed := [], map[], map[], s;
    }

    method InvalidateCache()
      requires TableOk(routes, data)
      modifies this`routingCache
      ensures Valid() && routingCache == map[]
    {
      routingCache := map[];
    }

    /** From the end, as long as there is no netmask. */
    method GetDefaultRoute() returns (d: Option<Handle>)
      requires TableOk(routes, data)
      ensures DefaultIs(routes, data, d)
    {
      var i := |routes|;
      while i > 0 && data[routes[i - 1]].netmask == 0
        invariant 0 <= i <= |routes|
        invariant forall j :: i <= j < |routes| ==> !IsDefault(data[routes[j]])
      {
        i := i - 1;
        if data[routes[i]].valid {
          return Some(routes[i]);
        }
      }
      forall h | h in routes
        ensures !IsDefault(data[h])
      {
        var j :| 0 <= j < |routes| && routes[j] == h;
        if j < i - 1 { assert AtMost(data, routes[j], routes[i - 1]); }
      }
      d := None;
    }

    /** find and erase */
    method InternalRemoveRoute(h: Handle) returns (found: bool)
      requires TableOk(routes, data)
      modifies this`routes
      ensures TableOk(routes, data) && routes == Others(old(routes), h)
      ensures found <==> h in old(routes)
    {
      var i := 0;
      while i < |routes| && routes[i] != h
        invariant 0 <= i <= |routes| && forall j :: 0 <= j < i ==> routes[j] != h
      {
        i := i + 1;
      }
      KeptOk(routes, data, (set x | x in routes) - {h});
      found := i < |routes|;
      if found {
        OthersIsErase(routes, h, i);
        routes := routes[..i] + routes[i + 1..];
      } else {
        KeptAll(routes, (set x | x in routes) - {h});
      }
    }

    /** A route out of the table is a route out of memory. */
    method DeleteRoute(h: Handle) returns (found: bool)
      requires TableOk(routes, data)
      modifies this
      ensures TableOk(routes, data) && routes == Others(old(routes), h)
      ensures found <==> h in old(routes)
      ensures data == if found then old(data) - {h} else old(data)
      ensures routingCache == if found then map[] else old(routingCache)
      ensures old(Valid()) ==> Valid()
    {
      ghost var all := routes;
      found := InternalRemoveRoute(h);
      if found {
        InvalidateCache();
        OthersOk(routes, data, data - {h});
        data := data - {h};
      } else {
        KeptAll(all, (set x | x in all) - {h});
      }
    }

    /** internalAddRoute: an unacceptable route is refused; a default route first takes the
        last valid one (`d`) out. */
    method InternalAddRoute(h: Handle, r: Route) returns (ok: bool, ghost d: Option<Handle>)
      requires TableOk(routes, data) && h !in routes
      modifies this
      ensures TableOk(routes, data) && (ok <==> Acceptable(r))
      ensures !ok ==> routes == old(routes) && routingCache == old(routingCache) && data == old(data)
      ensures ok ==> if r.netmask == 0 then DefaultIs(old(routes), old(data), d) else d == None
      ensures ok ==> data == Dropped(old(data), d)[h := r] && Known(Without(old(routes), d), data)
      ensures ok ==> routes == Inserted(Without(old(routes), d), data, h)
    {
      d := None;
      ok := ValidNetmaskIs(r.netmask);
      if !ok || (r.netmask != 0 && And(r.destination, r.netmask) == 0) || And(r.destination, Not(r.netmask)) != 0
         || r.iface == NO_INTERFACE {
        return false, None;
      }
      if r.netmask == 0 {
        var oldDefault := GetDefaultRoute();
        if oldDefault.Some? {
          var _ := DeleteRoute(oldDefault.value);
        }
        d := oldDefault;
      }
      InsertNew(h, r);
    }

    /** addRoute of a new route object. */
    method AddRoute(h: Handle, r: Route) returns (ok: bool, ghost d: Option<Handle>)
      requires Valid() && h !in data
      modifies this
      ensures Valid() && (ok <==> Acceptable(r))
      ensures !ok ==> routes == old(routes) && routingCache == old(routingCache) && data == old(data)
      ensures ok ==> routingCache == map[]
      ensures ok ==> if r.netmask == 0 then DefaultIs(old(routes), old(data), d) else d == None
      ensures ok ==> data == Dropped(old(data), d)[h := r] && Known(Without(old(routes), d), data)
      ensures ok ==> routes == Inserted(Without(old(routes), d), data, h)
    {
      ok, d := InternalAddRoute(h, r);
      if ok {
        InvalidateCache();
      }
    }

    /** A new route at its place in the order. */
    method InsertNew(h: Handle, r: Route)
      requires TableOk(routes, data) && h !in routes && WellFormed(r)
      modifies this`routes, this`data
      ensures TableOk(routes, data) && data == old(data)[h := r] && h in routes
      ensures Known(old(routes), data) && routes == Inserted(old(routes), data, h)
      ensures forall x :: x in routes <==> x == h || x in old(routes)
    {
      var data' := data[h := r];
      OthersOk(routes, data, data');
      InsertKeepsOrder(routes, data', h);
      data := data';
      routes := Inserted(routes, data', h);
    }

    /** removeRoute: the route leaves the table but stays in memory. */
    method RemoveRoute(h: Handle) returns (found: bool)
      requires Valid()
      modifies this
      ensures Valid() && routes == Others(old(routes), h) && data == old(data)
      ensures found <==> h in old(routes)
      ensures routingCache == if found then map[] else old(routingCache)
    {
      ghost var all := routes;
      found := InternalRemoveRoute(h);
      if found {
        InvalidateCache();
      } else {
        KeptAll(all, (set x | x in all) - {h});
      }
    }

    /** Erases, one by one, the routes outside `keep`. */
    method EraseOthers(keep: Route -> bool) returns (erased: bool)
      requires TableOk(routes, data)
      modifies this`routes, this`data
      ensures TableOk(routes, data) && routes == KeptWhere(old(routes), old(data), keep)
      ensures data == old(data) - Dropping(old(routes), old(data), keep)
      ensures erased <==> Dropping(old(routes), old(data), keep) != {}
    {
      ghost var all, known := routes, data;
      erased := false;
      var i := 0;
      ghost var k: nat := 0;
      while i < |routes|
        invariant 0 <= i <= |routes| && k <= |all|
        invariant ErasedAfter(all, known, keep, k) == Erase(i, routes, data, erased)
        decreases |routes| - i
      {
        NotEnded(all, known, keep, k);
        var kept := PassOrErase(i, erased, keep);
        if kept {
          i := i + 1;
        } else {
          erased := true;
        }
        k := k + 1;
      }
      ErasedAll(all, known, keep, k);
    }

    /** The route at `i` stays or leaves table and memory. */
    method PassOrErase(i: nat, ghost erased: bool, keep: Route -> bool) returns (kept: bool)
      requires i < |routes| && routes[i] in data
      modifies this`routes, this`data
      ensures Erase(if kept then i + 1 else i, routes, data, erased || !kept)
           == NextErase(Erase(i, old(routes), old(data), erased), keep)
      ensures |routes| == |old(routes)| - if kept then 0 else 1
    {
      var h := routes[i];
      kept := keep(data[h]);
      if !kept {
        data := data - {h};
        routes := routes[..i] + routes[i + 1..];
      }
    }

    /** EraseOthers, and the cache is emptied if there was something to erase. */
    method EraseAndInvalidate(keep: Route -> bool) returns (erased: bool)
      requires Valid()
      modifies this
      ensures Valid() && routes == KeptWhere(old(routes), old(data), keep)
      ensures data == old(data) - Dropping(old(routes), old(data), keep)
      ensures erased <==> Dropping(old(routes), old(data), keep) != {}
      ensures routingCache == if erased then map[] else old(routingCache)
    {
      ghost var all, known := routes, data;
      erased := EraseOthers(keep);
      if erased {
        InvalidateCache();
      } else {
        NothingDropped(all, known, keep);
        assert data == known;
      }
    }

    /** purge: the valid routes stay, in their order. */
    method Purge() returns (deleted: bool)
      requires Valid()
      modifies this
      ensures Valid() && routes == KeptWhere(old(routes), old(data), (r: Route) => r.valid)
      ensures forall h :: h in routes <==> h in old(routes) && old(data)[h].valid
      ensures routingCache == if deleted then map[] else old(routingCache)
      ensures deleted <==> exists h :: h in old(routes) && !old(data)[h].valid
    {
      SomethingDropped(routes, data, (r: Route) => r.valid);
      deleted := EraseAndInvalidate((r: Route) => r.valid);
    }

    /** deleteInterfaceRoutes: the routes of other interfaces stay, in their order. */
    method DeleteInterfaceRoutes(iface: nat) returns (changed: bool)
      requires Valid()
      modifies this
      ensures Valid() && routes == KeptWhere(old(routes), old(data), (r: Route) => r.iface != iface)
      ensures forall h :: h in routes <==> h in old(routes) && old(data)[h].iface != iface
      ensures routingCache == if changed then map[] else old(routingCache)
      ensures changed <==> exists h :: h in old(routes) && old(data)[h].iface == iface
    {
      SomethingDropped(routes, data, (r: Route) => r.iface != iface);
      changed := EraseAndInvalidate((r: Route) => r.iface != iface);
    }

    /** updateNetmaskRoutes: the routes of interface netmasks are built anew. */
    method UpdateNetmaskRoutes(added: seq<Entry>)
      requires Valid() && NewEntries(added, data)
      modifies this
      ensures Valid() && routingCache == map[]
      ensures forall h :: h in routes <==> (h in old(routes) && !old(data)[h].fromInterface)
                                           || exists e :: e in added && e.handle == h
      ensures forall e :: e in added ==> data[e.handle] == e.route
      ensures forall h :: h in old(routes) && !old(data)[h].fromInterface ==> h in data && data[h] == old(data)[h]
    {
      var _ := EraseOthers((r: Route) => !r.fromInterface);
      ghost var kept := routes;
      ghost var known := data;
      for i := 0 to |added|
        invariant TableOk(routes, data) && Rebuilding(kept, known, added, i, routes, data)
      {
        ghost var routes0, data0 := routes, data;
        InsertNew(added[i].handle, added[i].route);
        RebuildStep(kept, known, added, i, routes0, data0, routes, data);
      }
      InvalidateCache();
    }

    /** routeChanged after a setter: a change of destination, netmask or metric moves the
        route to its new place and empties the cache; an unacceptable change ends the program. */
    method RouteChanged(h: Handle, r: Route) returns (ok: bool, ghost d: Option<Handle>)
      requires Valid() && h in routes
      modifies this
      ensures ok <==> Acceptable(r)
      ensures ok ==> Valid() && routingCache == map[]
      ensures ok ==> var rest := Others(old(routes), h);
                     Known(rest, old(data))
                     && (if r.netmask == 0 then DefaultIs(rest, old(data), d) else d == None)
                     && data == Dropped(old(data), d)[h := r] && Known(Without(rest, d), data)
                     && routes == Inserted(Without(rest, d), data, h)
    {
      var found := InternalRemoveRoute(h);
      ok, d := InternalAddRoute(h, r);
      if ok {
        InvalidateCache();
      }
    }

    /** routeChanged after a setter of the gateway: nothing is moved and the cache is kept,
        which leaves it good exactly when every cached answer survives. */
    method GatewayChanged(h: Handle, g: Address)
      requires Valid() && h in routes
      modifies this`data
      ensures TableOk(routes, data) && data == old(data)[h := old(data)[h].(gateway := g)]
      ensures Valid() <==>
        forall f {:trigger routingCache[f]} :: f in routingCache ==>
          Survives(View(routes, old(data)), f, routingCache[f], h, g, seed)
    {
      ghost var known := data;
      data := data[h := data[h].(gateway := g)];
      GatewayKeepsOrder(routes, known, h, g, data);
      forall f | f in routingCache
        ensures CachedOk(View(routes, data), f, routingCache[f], seed)
           <==> Survives(View(routes, known), f, routingCache[f], h, g, seed)
      {
        assert CachedOk(View(routes, known), f, routingCache[f], seed);
        AnswerSurvives(View(routes, known), DestOf(f), f, seed, routingCache[f], h, g);
      }
    }

    /** A route becomes valid or invalid with its interface: the cache is emptied. */
    method InterfaceStateChanged(iface: nat, up: bool)
      requires Valid()
      modifies this
      ensures Valid() && routes == old(routes) && routingCache == map[]
      ensures data == WithState(old(data), iface, up)
    {
      var data' := WithState(data, iface, up);
      StateKeepsOrder(routes, data, iface, up);
      data := data';
      InvalidateCache();
    }

    /** findBestMatchingRoute: the answer is one a fresh scan may give, from the cache or not;
        the table stays and the cache stays good. */
    method FindBestMatchingRoute(dest: Address, flow: FlowBin) returns (answer: Option<Handle>)
      requires Valid() && |flow| < WORD && DestOf(flow) == dest
      modifies this`routingCache
      ensures Valid() && FreshAnswer(View(routes, data), dest, flow, seed, answer)
      ensures !Overruns(View(routes, data), dest) ==> LongestAnswer(View(routes, data), dest, flow, seed, answer)
      ensures forall f :: f != flow && f in old(routingCache) ==>
                f in routingCache && routingCache[f] == old(routingCache)[f]
      ensures routingCache.Keys == old(routingCache).Keys + if answer.Some? then {flow} else {}
    {
      answer := Lookup(dest, flow);
      if !Overruns(View(routes, data), dest) {
        LookupIsLongest(routes, data, dest, flow, seed, answer);
      }
    }

    method Lookup(dest: Address, flow: FlowBin) returns (answer: Option<Handle>)
      requires Valid() && |flow| < WORD && DestOf(flow) == dest
      modifies this`routingCache
      ensures Valid() && FreshAnswer(View(routes, data), dest, flow, seed, answer)
      ensures forall f :: f != flow && f in old(routingCache) ==>
                f in routingCache && routingCache[f] == old(routingCache)[f]
      ensures routingCache.Keys == old(routingCache).Keys + if answer.Some? then {flow} else {}
    {
      if flow in routingCache {
        var cached := routingCache[flow];
        CachedInTable(routes, data, flow, cached, seed);
        if data[cached].valid {
          return Some(cached);
        }
      }
      var best := Scan(dest);
      if best == [] {
        return None;
      }
      var chosen := Choose(best, flow, seed);
      answer := Some(chosen.handle);
      routingCache := routingCache[flow := chosen.handle];
    }

    /** The loop over the table. */
    method Scan(dest: Address) returns (best: seq<Entry>)
      requires TableOk(routes, data)
      ensures best == Collect(View(routes, data), dest, [])
    {
      ghost var table := View(routes, data);
      best := [];
      var i := 0;
      assert table[0..] == table;
      while i < |routes|
        invariant 0 <= i <= |routes| && Collect(table[i..], dest, best) == Collect(table, dest, [])
      {
        var e := Entry(routes[i], data[routes[i]]);
        assert table[i..][0] == e && table[i..][1..] == table[i + 1..];
        if e.route.valid {
          if best != [] && e.route.destination != best[|best| - 1].route.destination {
            break;
          }
          if Matches(dest, e.route) {
            best := best + [e];
          }
        }
        i := i + 1;
      }
    }
  }

  /** The first `n` of the new routes have joined those kept. */
  ghost predicate Rebuilding(kept: seq<Handle>, known: map<Handle, Route>, added: seq<Entry>, n: int,
                             routes: seq<Handle>, data: map<Handle, Route>) {
    && (forall h :: h in routes <==> h in kept || exists k :: 0 <= k < n <= |added| && added[k].handle == h)
    && (forall h :: h in known ==> h in data && data[h] == known[h])
    && (forall k :: 0 <= k < n <= |added| ==> added[k].handle in data && data[added[k].handle] == added[k].route)
    && forall k :: 0 <= n <= k < |added| ==> added[k].handle !in data
  }

  lemma RebuildStep(kept: seq<Handle>, known: map<Handle, Route>, added: seq<Entry>, n: nat, routes: seq<Handle>,
                    data: map<Handle, Route>, routes': seq<Handle>, data': map<Handle, Route>)
    requires Rebuilding(kept, known, added, n, routes, data) && n < |added|
    requires forall i, j :: 0 <= i < j < |added| ==> added[i].handle != added[j].handle
    requires data' == data[added[n].handle := added[n].route]
    requires forall x :: x in routes' <==> x == added[n].handle || x in routes
    ensures Rebuilding(kept, known, added, n + 1, routes', data')
  {
  }

  /** New route objects with the netmasks of interfaces. */
  predicate NewEntries(added: seq<Entry>, data: map<Handle, Route>) {
    && (forall i :: 0 <= i < |added| ==> added[i].handle !in data && WellFormed(added[i].route))
    && forall i, j :: 0 <= i < j < |added| ==> added[i].handle != added[j].handle
  }

  function WithState(data: map<Handle, Route>, iface: nat, up: bool): map<Handle, Route> {
    map h | h in data :: if data[h].iface == iface then data[h].(valid := up) else data[h]
  }

  /** The scan of the flow does not collect the changed route, or the flow still takes the
      cached one. */
  ghost predicate Survives(table: seq<Entry>, flow: FlowBin, c: Handle, h: Handle, g: Address, seed: Word) {
    |flow| < WORD ==>
      var best := Collect(table, DestOf(flow), []);
      !Handles(best, h) || StillTaken(best, c, h, g, flow, seed)
  }

  /** The order does not look at gateways. */
  lemma GatewayKeepsOrder(routes: seq<Handle>, data: map<Handle, Route>, h: Handle, g: Address,
                          data': map<Handle, Route>)
    requires TableOk(routes, data) && h in routes && data' == data[h := data[h].(gateway := g)]
    ensures TableOk(routes, data') && View(routes, data') == Regate(View(routes, data), h, g)
  {
    forall i, j | 0 <= i < j < |routes|
      ensures AtMost(data', routes[i], routes[j])
    {
      assert AtMost(data, routes[i], routes[j]);
    }
  }

  /** The order does not look at validity. */
  lemma StateKeepsOrder(routes: seq<Handle>, data: map<Handle, Route>, iface: nat, up: bool)
    requires TableOk(routes, data)
    ensures TableOk(routes, WithState(data, iface, up))
  {
    var data' := WithState(data, iface, up);
    forall i, j | 0 <= i < j < |routes|
      ensures AtMost(data', routes[i], routes[j])
    {
      assert AtMost(data, routes[i], routes[j]);
    }
  }

  lemma SomethingDropped(all: seq<Handle>, known: map<Handle, Route>, keep: Route -> bool)
    requires Known(all, known)
    ensures Dropping(all, known, keep) != {} <==> exists h :: h in all && !keep(known[h])
  {
    if h :| h in all && !keep(known[h]) {
      assert h in Dropping(all, known, keep);
    }
    if h :| h in Dropping(all, known, keep) {
      assert h in all && !keep(known[h]);
    }
  }

  /** Nothing dropped is everything kept. */
  lemma NothingDropped(all: seq<Handle>, known: map<Handle, Route>, keep: Route -> bool)
    requires TableOk(all, known) && Dropping(all, known, keep) == {}
    ensures KeptWhere(all, known, keep) == all
  {
    forall h | h in all
      ensures h in Staying(all, known, keep)
    {
      assert !keep(known[h]) <==> h in Dropping(all, known, keep);
    }
    KeptAll(all, Staying(all, known, keep));
  }

  ghost function Staying(all: seq<Handle>, known: map<Handle, Route>, keep: Route -> bool): set<Handle> {
    set h | h in all && h in known && keep(known[h])
  }

  ghost function KeptWhere(all: seq<Handle>, known: map<Handle, Route>, keep: Route -> bool): seq<Handle> {
    Kept(all, Staying(all, known, keep))
  }

  ghost function Dropping(all: seq<Handle>, known: map<Handle, Route>, keep: Route -> bool): set<Handle> {
    set h | h in all && h in known && !keep(known[h])
  }

  /** Where the erasing of routes stands. */
  datatype Erase = Erase(i: nat, routes: seq<Handle>, data: map<Handle, Route>, erased: bool)

  /** The route at `i` is passed or erased. */
  function NextErase(e: Erase, keep: Route -> bool): Erase {
    if e.i >= |e.routes| || e.routes[e.i] !in e.data then e
    else if keep(e.data[e.routes[e.i]]) then e.(i := e.i + 1)
    else Erase(e.i, e.routes[..e.i] + e.routes[e.i + 1..], e.data - {e.routes[e.i]}, true)
  }

  function ErasedAfter(all: seq<Handle>, known: map<Handle, Route>, keep: Route -> bool, k: nat): Erase {
    if k == 0 then Erase(0, all, known, false) else NextErase(ErasedAfter(all, known, keep, k - 1), keep)
  }

  /** After the first `k` of `all` routes: those kept, then the rest. */
  ghost predicate Erasing(all: seq<Handle>, known: map<Handle, Route>, keep: Route -> bool, k: nat, e: Erase)
    requires k <= |all|
  {
    && Closing(all, Staying(all, known, keep), k, e.i, e.routes)
    && e.data == known - Dropping(all[..k], known, keep)
    && (e.erased <==> Dropping(all[..k], known, keep) != {})
  }

  predicate Closing(all: seq<Handle>, stay: set<Handle>, k: nat, i: nat, routes: seq<Handle>)
    requires k <= |all|
  {
    routes == Kept(all[..k], stay) + all[k..] && i == |Kept(all[..k], stay)|
  }

  lemma EraseStarts(all: seq<Handle>, known: map<Handle, Route>, keep: Route -> bool)
    ensures Erasing(all, known, keep, 0, Erase(0, all, known, false))
  {
    assert all[..0] == [] && all[0..] == all;
    assert Dropping([], known, keep) == {};
  }

  lemma {:induction false} EraseIs(all: seq<Handle>, known: map<Handle, Route>, keep: Route -> bool, k: nat)
    requires TableOk(all, known) && k <= |all|
    ensures Erasing(all, known, keep, k, ErasedAfter(all, known, keep, k))
  {
    if k == 0 {
      EraseStarts(all, known, keep);
    } else {
      EraseIs(all, known, keep, k - 1);
      EraseStep(all, known, keep, k - 1, ErasedAfter(all, known, keep, k - 1));
    }
  }

  lemma NotEnded(all: seq<Handle>, known: map<Handle, Route>, keep: Route -> bool, k: nat)
    requires TableOk(all, known) && k <= |all|
    ensures var e := ErasedAfter(all, known, keep, k); e.i < |e.routes| ==> e.routes[e.i] in e.data && k < |all|
  {
    var e := ErasedAfter(all, known, keep, k);
    EraseIs(all, known, keep, k);
    if e.i < |e.routes| {
      NextOfAll(all, Staying(all, known, keep), k, e.i, e.routes);
      NextDropped(all, known, keep, k);
    }
  }

  lemma NextDropped(all: seq<Handle>, known: map<Handle, Route>, keep: Route -> bool, k: nat)
    requires TableOk(all, known) && k < |all|
    ensures Dropping(all[..k + 1], known, keep)
         == Dropping(all[..k], known, keep) + if keep(known[all[k]]) then {} else {all[k]}
    ensures all[k] !in Dropping(all[..k], known, keep)
  {
    assert all[..k + 1] == all[..k] + [all[k]];
    forall j | 0 <= j < k
      ensures all[j] != all[k]
    {
      assert Differ(all, j, k);
    }
  }

  /** The entry at `i` is the next of `all`. */
  lemma NextOfAll(all: seq<Handle>, stay: set<Handle>, k: nat, i: nat, routes: seq<Handle>)
    requires k <= |all| && Closing(all, stay, k, i, routes) && i < |routes|
    ensures k < |all| && routes[i] == all[k]
  {
  }

  lemma CutAt(all: seq<Handle>, k: nat)
    requires k < |all|
    ensures all[..k + 1] == all[..k] + [all[k]] && all[k..] == [all[k]] + all[k + 1..]
  {
  }

  lemma KeptStep(all: seq<Handle>, stay: set<Handle>, k: nat)
    requires k < |all|
    ensures Kept(all[..k + 1], stay) == if all[k] in stay then Kept(all[..k], stay) + [all[k]] else Kept(all[..k], stay)
  {
    CutAt(all, k);
    KeptNext(all[..k], all[k], stay);
  }

  lemma ClosingStep(all: seq<Handle>, stay: set<Handle>, k: nat, i: nat, routes: seq<Handle>)
    requires k < |all| && Closing(all, stay, k, i, routes)
    ensures i < |routes| && routes[i] == all[k]
    ensures if all[k] in stay then Closing(all, stay, k + 1, i + 1, routes)
            else Closing(all, stay, k + 1, i, routes[..i] + routes[i + 1..])
  {
    KeptStep(all, stay, k);
    CutAt(all, k);
    NextRest(Kept(all[..k], stay), all[k], all[k + 1..], all[k..], routes, i);
  }

  lemma EraseStep(all: seq<Handle>, known: map<Handle, Route>, keep: Route -> bool, k: nat, e: Erase)
    requires TableOk(all, known) && k < |all| && Erasing(all, known, keep, k, e)
    ensures Erasing(all, known, keep, k + 1, NextErase(e, keep))
  {
    ClosingStep(all, Staying(all, known, keep), k, e.i, e.routes);
    NextDropped(all, known, keep, k);
  }

  lemma NextRest(done: seq<Handle>, h: Handle, rest: seq<Handle>, all: seq<Handle>, routes: seq<Handle>, i: int)
    requires all == [h] + rest && routes == done + all && i == |done|
    ensures routes == (done + [h]) + rest && |done + [h]| == i + 1
    ensures routes[..i] + routes[i + 1..] == done + rest
  {
  }

  lemma ClosingEnds(all: seq<Handle>, stay: set<Handle>, k: nat, i: nat, routes: seq<Handle>)
    requires k <= |all| && Closing(all, stay, k, i, routes) && i >= |routes|
    ensures k == |all| && all[..k] == all && routes == Kept(all, stay)
  {
    assert all[k..] == [];
  }

  lemma ErasedAll(all: seq<Handle>, known: map<Handle, Route>, keep: Route -> bool, k: nat)
    requires TableOk(all, known) && k <= |all|
    ensures var e := ErasedAfter(all, known, keep, k);
      e.i >= |e.routes| ==>
        && e.routes == KeptWhere(all, known, keep) && e.data == known - Dropping(all, known, keep)
        && (e.erased <==> Dropping(all, known, keep) != {}) && TableOk(e.routes, e.data)
  {
    var e := ErasedAfter(all, known, keep, k);
    EraseIs(all, known, keep, k);
    if e.i >= |e.routes| {
      ClosingEnds(all, Staying(all, known, keep), k, e.i, e.routes);
      assert e.routes == KeptWhere(all, known, keep);
      KeptOk(all, known, Staying(all, known, keep));
      OthersOk(e.routes, known, e.data);
    }
  }

  /** isValidNetmask */
  method ValidNetmaskIs(m: Address) returns (ok: bool)
    ensures ok <==> ValidNetmask(m)
  {
    ok := exists a :: 0 <= a <= 32 && m == Ones(32, a);
  }

  // ---- an overrun in a table the methods build ----

  /** addRoute accepts 128.0.0.0 under /2 and under /1; in the table they make, the scan for
      128.0.0.0 collects both, though the second is not a longest match. */
  method OverrunTable(s: Word) returns (t: RoutingTable)
    ensures fresh(t) && t.Valid() && t.seed == s
    ensures Overruns(View(t.routes, t.data), 0x8000_0000)
    ensures exists e :: e in Collect(View(t.routes, t.data), 0x8000_0000, [])
                        && !Longest(View(t.routes, t.data), 0x8000_0000, e)
  {
    var ra := Route(0x8000_0000, 0xC000_0000, 1, 0, 0, 1, false, true);
    var rb := Route(0x8000_0000, 0x8000_0000, 2, 0, 0, 1, false, true);
    ExampleAccepted(ra);
    ExampleAccepted(rb);
    OverrunExample(Entry(0, ra), Entry(1, rb));
    t := TwoRoutes(s, ra, rb);
  }

  lemma ExampleAccepted(r: Route)
    requires r.destination == 0x8000_0000 && r.netmask in [0x8000_0000, 0xC000_0000] && r.iface == 1
    ensures Acceptable(r)
  {
    ExampleMasks(0x8000_0000, 0xC000_0000);
    MaskedDestination(r);
  }

  /** A new table with two routes added, of which the second does not precede the first. */
  method TwoRoutes(s: Word, ra: Route, rb: Route) returns (t: RoutingTable)
    requires Acceptable(ra) && Acceptable(rb) && ra.netmask != 0 && rb.netmask != 0 && !Less(rb, ra)
    ensures fresh(t) && t.seed == s && t.Valid() && t.routingCache == map[]
    ensures View(t.routes, t.data) == [Entry(0, ra), Entry(1, rb)]
  {
    t := new RoutingTable(s);
    var _, _ := t.AddRoute(0, ra);
    var _, _ := t.AddRoute(1, rb);
    TwoInserted(ra, rb, t.routes, t.data);
  }

  /** A second route goes behind a first one that it does not precede. */
  lemma TwoInserted(ra: Route, rb: Route, routes: seq<Handle>, data: map<Handle, Route>)
    requires !Less(rb, ra) && data == map[0 := ra, 1 := rb]
    requires routes == Inserted(Inserted([], map[0 := ra], 0), data, 1)
    ensures Known(routes, data) && View(routes, data) == [Entry(0, ra), Entry(1, rb)]
  {
    assert Inserted([], map[0 := ra], 0) == [0];
    assert UpperBound([0], data, rb) == 1;
  }

  // ---- a cache that a change of gateway leaves stale ----

  /** A table of two equal-cost routes, one flow looked up, one gateway changed: the cache
      still has the flow, with an answer that no fresh scan gives. */
  method StaleTable(s: Word) returns (t: RoutingTable, flow: FlowBin)
    ensures fresh(t) && t.seed == s && TableOk(t.routes, t.data)
    ensures flow in t.routingCache && !CachedOk(View(t.routes, t.data), flow, t.routingCache[flow], s)
  {
    t, flow := CachingTable(s);
    ghost var known := t.data;
    ChangeGateway(t, 0, 3);
    CachedGoesStale(t.routes, known, t.data, flow, s, t.routingCache);
  }

  method ChangeGateway(t: RoutingTable, h: Handle, g: Address)
    requires t.Valid() && h in t.routes
    modifies t`data
    ensures TableOk(t.routes, t.data) && t.data == old(t.data)[h := old(t.data)[h].(gateway := g)]
  {
    t.GatewayChanged(h, g);
  }

  method CachingTable(s: Word) returns (t: RoutingTable, flow: FlowBin)
    ensures fresh(t) && t.seed == s && t.Valid() && 0 in t.routes
    ensures View(t.routes, t.data) == [Entry(0, HalfRoute(1)), Entry(1, HalfRoute(2))]
    ensures flow in t.routingCache && DestOf(flow) == 0x8000_0000
  {
    ExampleAccepted(HalfRoute(1));
    ExampleAccepted(HalfRoute(2));
    t := TwoRoutes(s, HalfRoute(1), HalfRoute(2));
    assert t.routes[0] == View(t.routes, t.data)[0].handle;
    flow := DestFlow(0x8000_0000);
    FlowsTellDestination(0, 0x8000_0000, 0, 0, 0);
    TwoCollected(View(t.routes, t.data));
    var answer := t.FindBestMatchingRoute(0x8000_0000, flow);
  }

  lemma CachedGoesStale(routes: seq<Handle>, data: map<Handle, Route>, data': map<Handle, Route>, flow: FlowBin,
                        seed: Word, cache: map<FlowBin, Handle>)
    requires Ok(routes, data, cache, seed) && 0 in routes && data' == data[0 := data[0].(gateway := 3)]
    requires View(routes, data) == [Entry(0, HalfRoute(1)), Entry(1, HalfRoute(2))]
    requires flow in cache && DestOf(flow) == 0x8000_0000
    ensures Known(routes, data') && !CachedOk(View(routes, data'), flow, cache[flow], seed)
  {
    GatewayKeepsOrder(routes, data, 0, 3, data');
    assert CachedOk(View(routes, data), flow, cache[flow], seed);
    NothingSurvives(View(routes, data), flow, seed, cache[flow]);
  }
}

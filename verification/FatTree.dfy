/** The generated addresses and routes of the fat tree (generate_routes.py, without the
    emulated clusters): whatever equal-cost routes are chosen, a packet reaches its host
    through at most five routers. */
module FatTree {
  import opened Arith

  /** Clusters, servers in a rack, and racks, aggregation switches and uplinks in a cluster. */
  datatype Config = Config(clusters: nat, servers: nat, degree: nat)

  datatype Node = Host(cluster: nat, tor: nat, server: nat)
                | Tor(cluster: nat, tor: nat)
                | Agg(cluster: nat, agg: nat)
                | Core(core: nat)

  datatype Address = Address(a: nat, b: nat, c: nat, d: nat)

  predicate IsNode(c: Config, n: Node) {
    match n
    case Host(cl, t, s) => cl < c.clusters && t < c.degree && s < c.servers
    case Tor(cl, t) => cl < c.clusters && t < c.degree
    case Agg(cl, g) => cl < c.clusters && g < c.degree
    case Core(k) => k < c.degree * c.degree
  }

  // ---- addresses ----

  /** An interface line. */
  datatype Iface = Iface(node: Node, eth: nat, address: Address)

  function HostAddress(cluster: nat, tor: nat, server: nat): Address { Address(1, cluster, tor, 4 * server) }

  /** The lines of a server and of its port at the rack switch. */
  predicate ServerLine(c: Config, i: Iface, cl: nat, t: nat, s: nat) {
    && IsNode(c, Host(cl, t, s))
    && (i == Iface(Host(cl, t, s), 0, HostAddress(cl, t, s))
        || i == Iface(Tor(cl, t), s, Address(1, cl, t, 4 * s + 1)))
  }

  predicate TorAggLine(c: Config, i: Iface, cl: nat, g: nat, t: nat) {
    && IsNode(c, Tor(cl, t)) && IsNode(c, Agg(cl, g))
    && (i == Iface(Tor(cl, t), c.servers + g, Address(3, cl, g, 4 * t))
        || i == Iface(Agg(cl, g), t, Address(3, cl, g, 4 * t + 1)))
  }

  predicate AggCoreLine(c: Config, i: Iface, k: nat, cl: nat) {
    && c.degree > 0 && IsNode(c, Core(k)) && cl < c.clusters
    && var g := k % c.degree;
       i == Iface(Core(k), cl, Address(4, cl, g, 4 * k + 1))
       || i == Iface(Agg(cl, g), c.degree + k / c.degree, Address(4, cl, g, 4 * k))
  }

  /** Some iteration of the address loops writes the line. */
  ghost predicate IsIface(c: Config, i: Iface) {
    || (exists cl: nat, t: nat, s: nat :: ServerLine(c, i, cl, t, s))
    || (exists cl: nat, g: nat, t: nat :: TorAggLine(c, i, cl, g, t))
    || exists k: nat, cl: nat :: AggCoreLine(c, i, k, cl)
  }

  /** The node and port that an address belongs to, read off the address. */
  function Owner(c: Config, a: Address): (Node, nat)
    requires c.degree > 0
  {
    if a.a == 1 then if a.d % 4 == 0 then (Host(a.b, a.c, a.d / 4), 0) else (Tor(a.b, a.c), a.d / 4)
    else if a.a == 3 then if a.d % 4 == 0 then (Tor(a.b, a.d / 4), c.servers + a.c) else (Agg(a.b, a.c), a.d / 4)
    else if a.d % 4 == 0 then (Agg(a.b, a.c), c.degree + (a.d / 4) / c.degree)
    else (Core(a.d / 4), a.b)
  }

  lemma OwnerIs(c: Config, i: Iface)
    requires c.degree > 0 && IsIface(c, i)
    ensures Owner(c, i.address) == (i.node, i.eth)
  {
    if cl: nat, t: nat, s: nat :| ServerLine(c, i, cl, t, s) {
      Quarter(s);
    } else if cl: nat, g: nat, t: nat :| TorAggLine(c, i, cl, g, t) {
      Quarter(t);
    } else {
      var k: nat, cl: nat :| AggCoreLine(c, i, k, cl);
      CoreOwner(c, i, k, cl);
    }
  }

  lemma CoreOwner(c: Config, i: Iface, k: nat, cl: nat)
    requires c.degree > 0 && AggCoreLine(c, i, k, cl)
    ensures Owner(c, i.address) == (i.node, i.eth)
  {
    Quarter(k);
  }

  lemma Quarter(x: nat)
    ensures (4 * x) % 4 == 0 && (4 * x) / 4 == x && (4 * x + 1) % 4 == 1 && (4 * x + 1) / 4 == x
  {
  }

  /** No address is given to two ports. */
  lemma AddressesDistinct(c: Config, i: Iface, j: Iface)
    requires c.degree > 0 && IsIface(c, i) && IsIface(c, j) && i.address == j.address
    ensures i == j
  {
    OwnerIs(c, i);
    OwnerIs(c, j);
  }

  // ---- routes ----

  /** The core behind an uplink of an aggregation switch. */
  function Uplink(c: Config, g: nat, choice: nat): nat { g + choice * c.degree }

  /** A route line; the netmask covers the first `bytes` bytes. */
  datatype Route = Route(node: Node, destination: Address, bytes: nat, gateway: Address, eth: nat)

  predicate Matches(r: Route, a: Address) {
    && (r.bytes >= 1 ==> r.destination.a == a.a)
    && (r.bytes >= 2 ==> r.destination.b == a.b)
    && (r.bytes >= 3 ==> r.destination.c == a.c)
    && (r.bytes >= 4 ==> r.destination.d == a.d)
  }

  /** The lines of the route loops, by the node whose table they are in; `dest` and `choice`
      are the loop variables. */
  predicate RouteLine(c: Config, r: Route, dest: Node, choice: nat) {
    && IsNode(c, r.node) && IsNode(c, dest) && dest.Host?
    && match r.node
       case Host(cl, t, s) => r == Route(r.node, Address(1, 0, 0, 0), 1, Address(1, cl, t, 4 * s + 1), 0)
       case Tor(cl, t) =>
         var a := HostAddress(dest.cluster, dest.tor, dest.server);
         if dest.cluster == cl && dest.tor == t then r == Route(r.node, a, 4, a, dest.server)
         else choice < c.degree && r == Route(r.node, a, 4, Address(3, cl, choice, 4 * t + 1), c.servers + choice)
       case Agg(cl, g) =>
         if dest.cluster == cl then
           r == Route(r.node, Address(1, cl, dest.tor, 0), 3, Address(3, cl, g, 4 * dest.tor), dest.tor)
         else
           choice < c.degree
           && r == Route(r.node, HostAddress(dest.cluster, dest.tor, dest.server), 4,
                         Address(4, cl, g, 4 * Uplink(c, g, choice) + 1), c.degree + choice)
       case Core(k) =>
         c.degree > 0
         && r == Route(r.node, Address(1, dest.cluster, dest.tor, 0), 3,
                       Address(4, dest.cluster, k % c.degree, 4 * k), dest.cluster)
  }

  ghost predicate IsRoute(c: Config, r: Route) { exists dest: Node, choice: nat :: RouteLine(c, r, dest, choice) }

  /** Any of the routes with the longest prefix may be chosen. */
  ghost predicate Chosen(c: Config, r: Route, n: Node, a: Address) {
    && IsRoute(c, r) && r.node == n && Matches(r, a)
    && forall x :: IsRoute(c, x) && x.node == n && Matches(x, a) ==> x.bytes <= r.bytes
  }

  /** The chosen route's gateway is the address of a port of `n'`. */
  ghost predicate Step(c: Config, n: Node, n': Node, dst: Node)
    requires dst.Host?
  {
    exists r, eth: nat ::
      Chosen(c, r, n, HostAddress(dst.cluster, dst.tor, dst.server)) && IsIface(c, Iface(n', eth, r.gateway))
  }

  ghost predicate GoesOn(c: Config, n: Node, dst: Node)
    requires dst.Host?
  {
    exists n' :: Step(c, n, n', dst)
  }

  // ---- the way of a packet ----

  /** Steps still to go. */
  function Distance(n: Node, dst: Node): nat
    requires dst.Host?
  {
    match n
    case Host(cl, t, s) => if n == dst then 0 else 1 + TorDistance(cl, t, dst)
    case Tor(cl, t) => TorDistance(cl, t, dst)
    case Agg(cl, g) => if cl == dst.cluster then 2 else 4
    case Core(k) => 3
  }

  function TorDistance(cl: nat, t: nat, dst: Node): nat
    requires dst.Host?
  {
    if cl == dst.cluster then if t == dst.tor then 1 else 3 else 5
  }

  /** The core that an aggregation switch reaches by one of its uplinks. */
  lemma UplinkCore(c: Config, g: nat, choice: nat)
    requires g < c.degree && choice < c.degree
    ensures var k := g + choice * c.degree;
            k < c.degree * c.degree && k % c.degree == g && k / c.degree == choice
  {
    var d, k := c.degree, g + choice * c.degree;
    Product(choice, d);
    DivisionIs(k, d, choice, g);
  }

  lemma Product(x: nat, d: nat)
    requires x < d
    ensures x * d + d <= d * d
  {
    assert (d - x - 1) * d >= 0;
  }

  /** Both ends of an uplink. */
  lemma UplinkLines(c: Config, cl: nat, g: nat, choice: nat) returns (k: nat)
    requires cl < c.clusters && g < c.degree && choice < c.degree
    ensures k == Uplink(c, g, choice)
    ensures IsIface(c, Iface(Agg(cl, g), c.degree + choice, Address(4, cl, g, 4 * k)))
    ensures IsNode(c, Core(k)) && IsIface(c, Iface(Core(k), cl, Address(4, cl, g, 4 * k + 1)))
  {
    k := Uplink(c, g, choice);
    UplinkCore(c, g, choice);
    assert AggCoreLine(c, Iface(Agg(cl, g), c.degree + choice, Address(4, cl, g, 4 * k)), k, cl);
    assert AggCoreLine(c, Iface(Core(k), cl, Address(4, cl, g, 4 * k + 1)), k, cl);
  }

  /** Two different addresses of one link: netmask 255.255.255.252. */
  predicate AcrossLink(x: Address, y: Address) {
    x.a == y.a && x.b == y.b && x.c == y.c && x.d / 4 == y.d / 4 && x != y
  }

  lemma LinkEnds(a: nat, b: nat, c: nat, k: nat)
    ensures AcrossLink(Address(a, b, c, 4 * k), Address(a, b, c, 4 * k + 1))
    ensures AcrossLink(Address(a, b, c, 4 * k + 1), Address(a, b, c, 4 * k))
  {
  }

  lemma UplinkPort(c: Config, r: Route, cl: nat, g: nat, choice: nat) returns (port: Iface)
    requires cl < c.clusters && g < c.degree && choice < c.degree
    requires r.gateway == Address(4, cl, g, 4 * Uplink(c, g, choice) + 1) && r.eth == c.degree + choice
    ensures IsIface(c, port) && port.node == Agg(cl, g) && port.eth == r.eth
    ensures AcrossLink(port.address, r.gateway)
  {
    var k := UplinkLines(c, cl, g, choice);
    port := Iface(Agg(cl, g), c.degree + choice, Address(4, cl, g, 4 * k));
    LinkEnds(4, cl, g, k);
  }

  /** The port that a route names exists, and the gateway is at the other end of its link. */
  lemma GatewayOnLink(c: Config, r: Route, dest: Node, choice: nat) returns (port: Iface)
    requires c.degree > 0 && RouteLine(c, r, dest, choice)
    ensures IsIface(c, port) && port.node == r.node && port.eth == r.eth
    ensures AcrossLink(port.address, r.gateway)
  {
    match r.node
    case Host(cl, t, s) =>
      port := Iface(r.node, 0, HostAddress(cl, t, s));
      LinkEnds(1, cl, t, s);
      assert ServerLine(c, port, cl, t, s);
    case Tor(cl, t) =>
      if dest.cluster == cl && dest.tor == t {
        port := Iface(r.node, dest.server, Address(1, cl, t, 4 * dest.server + 1));
        LinkEnds(1, cl, t, dest.server);
        assert ServerLine(c, port, cl, t, dest.server);
      } else {
        port := Iface(r.node, c.servers + choice, Address(3, cl, choice, 4 * t));
        LinkEnds(3, cl, choice, t);
        assert TorAggLine(c, port, cl, choice, t);
      }
    case Agg(cl, g) =>
      if dest.cluster == cl {
        port := Iface(r.node, dest.tor, Address(3, cl, g, 4 * dest.tor + 1));
        LinkEnds(3, cl, g, dest.tor);
        assert TorAggLine(c, port, cl, g, dest.tor);
      } else {
        port := UplinkPort(c, r, cl, g, choice);
      }
    case Core(k) =>
      port := Iface(r.node, dest.cluster, Address(4, dest.cluster, k % c.degree, 4 * k + 1));
      LinkEnds(4, dest.cluster, k % c.degree, k);
      assert AggCoreLine(c, port, k, dest.cluster);
  }

  /** The node and port behind the gateway of a route. */
  ghost function NextHop(c: Config, r: Route, dest: Node, choice: nat): (Node, nat)
    requires c.degree > 0 && RouteLine(c, r, dest, choice)
  {
    match r.node
    case Host(cl, t, s) => (Tor(cl, t), s)
    case Tor(cl, t) => if dest.cluster == cl && dest.tor == t then (dest, 0) else (Agg(cl, choice), t)
    case Agg(cl, g) =>
      if dest.cluster == cl then (Tor(cl, dest.tor), c.servers + g) else (Core(Uplink(c, g, choice)), cl)
    case Core(k) => (Agg(dest.cluster, k % c.degree), c.degree + k / c.degree)
  }

  lemma NextHopIface(c: Config, r: Route, dest: Node, choice: nat)
    requires c.degree > 0 && RouteLine(c, r, dest, choice)
    ensures IsNode(c, NextHop(c, r, dest, choice).0)
    ensures IsIface(c, Iface(NextHop(c, r, dest, choice).0, NextHop(c, r, dest, choice).1, r.gateway))
  {
    var i := Iface(NextHop(c, r, dest, choice).0, NextHop(c, r, dest, choice).1, r.gateway);
    match r.node
    case Host(cl, t, s) =>
      assert ServerLine(c, i, cl, t, s);
    case Tor(cl, t) =>
      if dest.cluster == cl && dest.tor == t {
        assert ServerLine(c, i, cl, t, dest.server);
      } else {
        assert TorAggLine(c, i, cl, choice, t);
      }
    case Agg(cl, g) =>
      if dest.cluster == cl {
        assert TorAggLine(c, i, cl, g, dest.tor);
      } else {
        var k := UplinkLines(c, cl, g, choice);
      }
    case Core(k) =>
      assert AggCoreLine(c, i, k, dest.cluster);
  }

  /** The gateway of every route belongs to a node one step nearer to any host the route matches. */
  lemma RouteLeadsOn(c: Config, r: Route, dst: Node, dest: Node, choice: nat) returns (n': Node, eth: nat)
    requires c.degree > 0 && IsNode(c, dst) && dst.Host? && RouteLine(c, r, dest, choice)
    requires Matches(r, HostAddress(dst.cluster, dst.tor, dst.server)) && r.node != dst
    ensures IsNode(c, n') && IsIface(c, Iface(n', eth, r.gateway))
    ensures Distance(n', dst) == Distance(r.node, dst) - 1
  {
    n', eth := NextHop(c, r, dest, choice).0, NextHop(c, r, dest, choice).1;
    NextHopIface(c, r, dest, choice);
    NextHopNearer(c, r, dst, dest, choice);
  }

  lemma NextHopNearer(c: Config, r: Route, dst: Node, dest: Node, choice: nat)
    requires c.degree > 0 && dst.Host? && RouteLine(c, r, dest, choice)
    requires Matches(r, HostAddress(dst.cluster, dst.tor, dst.server)) && r.node != dst
    ensures Distance(NextHop(c, r, dest, choice).0, dst) == Distance(r.node, dst) - 1
  {
  }

  /** Every step, whichever route is chosen, is one nearer to the destination. */
  lemma StepNearer(c: Config, n: Node, n': Node, dst: Node)
    requires c.degree > 0 && IsNode(c, dst) && dst.Host? && n != dst && Step(c, n, n', dst)
    ensures IsNode(c, n') && Distance(n', dst) == Distance(n, dst) - 1
  {
    var a := HostAddress(dst.cluster, dst.tor, dst.server);
    var r, eth: nat :| Chosen(c, r, n, a) && IsIface(c, Iface(n', eth, r.gateway));
    var dest: Node, choice: nat :| RouteLine(c, r, dest, choice);
    var m, e := RouteLeadsOn(c, r, dst, dest, choice);
    AddressesDistinct(c, Iface(n', eth, r.gateway), Iface(m, e, r.gateway));
  }

  /** A route for every host in every table. */
  lemma HasRoute(c: Config, n: Node, dst: Node) returns (r: Route)
    requires c.degree > 0 && IsNode(c, n) && IsNode(c, dst) && dst.Host?
    ensures IsRoute(c, r) && r.node == n && Matches(r, HostAddress(dst.cluster, dst.tor, dst.server))
  {
    var a := HostAddress(dst.cluster, dst.tor, dst.server);
    match n
    case Host(cl, t, s) =>
      r := Route(n, Address(1, 0, 0, 0), 1, Address(1, cl, t, 4 * s + 1), 0);
      assert RouteLine(c, r, dst, 0);
    case Tor(cl, t) =>
      r := if dst.cluster == cl && dst.tor == t then Route(n, a, 4, a, dst.server)
           else Route(n, a, 4, Address(3, cl, 0, 4 * t + 1), c.servers);
      assert RouteLine(c, r, dst, 0);
    case Agg(cl, g) =>
      r := if dst.cluster == cl then Route(n, Address(1, cl, dst.tor, 0), 3, Address(3, cl, g, 4 * dst.tor), dst.tor)
           else Route(n, a, 4, Address(4, cl, g, 4 * Uplink(c, g, 0) + 1), c.degree);
      assert RouteLine(c, r, dst, 0);
    case Core(k) =>
      r := Route(n, Address(1, dst.cluster, dst.tor, 0), 3, Address(4, dst.cluster, k % c.degree, 4 * k), dst.cluster);
      assert RouteLine(c, r, dst, 0);
  }

  /** All matching routes of a table have the same prefix length. */
  lemma OnePrefixLength(c: Config, r: Route, x: Route, dst: Node)
    requires IsNode(c, dst) && dst.Host? && IsRoute(c, r) && IsRoute(c, x) && r.node == x.node
    requires Matches(r, HostAddress(dst.cluster, dst.tor, dst.server))
    requires Matches(x, HostAddress(dst.cluster, dst.tor, dst.server))
    ensures r.bytes == x.bytes
  {
    var d1: Node, c1: nat :| RouteLine(c, r, d1, c1);
    var d2: Node, c2: nat :| RouteLine(c, x, d2, c2);
  }

  /** No node is at a loss, unless it is the destination. */
  lemma CanStep(c: Config, n: Node, dst: Node) returns (n': Node)
    requires c.degree > 0 && IsNode(c, n) && IsNode(c, dst) && dst.Host? && n != dst
    ensures Step(c, n, n', dst)
  {
    var a := HostAddress(dst.cluster, dst.tor, dst.server);
    var r := HasRoute(c, n, dst);
    forall x | IsRoute(c, x) && x.node == n && Matches(x, a)
      ensures x.bytes <= r.bytes
    {
      OnePrefixLength(c, r, x, dst);
    }
    assert Chosen(c, r, n, a);
    var dest: Node, choice: nat :| RouteLine(c, r, dest, choice);
    var eth: nat;
    n', eth := RouteLeadsOn(c, r, dst, dest, choice);
  }

  /** A packet's way: any choice of routes until it is there. */
  ghost predicate Way(c: Config, path: seq<Node>, dst: Node)
    requires dst.Host?
  {
    && path != [] && IsNode(c, path[0])
    && forall i :: 0 <= i < |path| - 1 ==> path[i] != dst && Step(c, path[i], path[i + 1], dst)
  }

  lemma {:induction false} WayNearer(c: Config, path: seq<Node>, dst: Node, k: nat)
    requires c.degree > 0 && IsNode(c, dst) && dst.Host? && Way(c, path, dst) && k < |path|
    ensures IsNode(c, path[k]) && Distance(path[k], dst) == Distance(path[0], dst) - k
  {
    if k > 0 {
      WayNearer(c, path, dst, k - 1);
      assert path[k - 1] != dst && Step(c, path[k - 1], path[k], dst);
      StepNearer(c, path[k - 1], path[k], dst);
    }
  }

  lemma OnlyThere(n: Node, dst: Node)
    requires dst.Host?
    ensures Distance(n, dst) == 0 <==> n == dst
    ensures Distance(n, dst) <= 6
  {
  }

  /** Every way between two hosts goes on until it has reached the destination, which it
      does in as many steps as `Distance` says: through at most five routers. */
  lemma Delivered(c: Config, path: seq<Node>, src: Node, dst: Node)
    requires c.degree > 0 && IsNode(c, src) && IsNode(c, dst) && src.Host? && dst.Host? && src != dst
    requires Way(c, path, dst) && path[0] == src
    ensures |path| - 1 <= Distance(src, dst) <= 6
    ensures |path| - 1 == Distance(src, dst) <==> path[|path| - 1] == dst
    ensures path[|path| - 1] != dst ==> GoesOn(c, path[|path| - 1], dst)
  {
    WayNearer(c, path, dst, |path| - 1);
    OnlyThere(path[|path| - 1], dst);
    OnlyThere(src, dst);
    if path[|path| - 1] != dst {
      var n' := CanStep(c, path[|path| - 1], dst);
    }
  }

  // ---- addresses that fit their bytes ----

  predicate Octets(a: Address) { a.a <= 255 && a.b <= 255 && a.c <= 255 && a.d <= 255 }

  predicate FitsBytes(c: Config) { c.clusters <= 256 && c.degree <= 8 && c.servers <= 64 }

  /** Every generated address has bytes for its parts exactly up to 256 clusters, degree 8
      and 64 servers in a rack. */
  lemma AddressesFit(c: Config)
    requires c.clusters > 0 && c.degree > 0
    ensures FitsBytes(c) <==> forall i :: IsIface(c, i) ==> Octets(i.address)
  {
    if FitsBytes(c) {
      forall i | IsIface(c, i)
        ensures Octets(i.address)
      {
        AddressFits(c, i);
      }
    } else {
      var i := TooLarge(c);
    }
  }

  lemma AddressFits(c: Config, i: Iface)
    requires c.degree > 0 && FitsBytes(c) && IsIface(c, i)
    ensures Octets(i.address)
  {
    if cl: nat, t: nat, s: nat :| ServerLine(c, i, cl, t, s) {
    } else if cl: nat, g: nat, t: nat :| TorAggLine(c, i, cl, g, t) {
    } else {
      var k: nat, cl: nat :| AggCoreLine(c, i, k, cl);
      Squares(c.degree, 8);
      assert k % c.degree < c.degree;
    }
  }

  lemma Squares(x: nat, y: nat)
    requires x <= y
    ensures x * x <= y * y
  {
    assert x * x <= x * y <= y * y;
  }

  lemma TooLarge(c: Config) returns (i: Iface)
    requires c.clusters > 0 && c.degree > 0 && !FitsBytes(c)
    ensures IsIface(c, i) && !Octets(i.address)
  {
    if c.clusters > 256 || c.degree > 8 {
      var cl, k := c.clusters - 1, c.degree * c.degree - 1;
      if c.degree > 8 { Squares(9, c.degree); }
      Squares(1, c.degree);
      i := Iface(Core(k), cl, Address(4, cl, k % c.degree, 4 * k + 1));
      assert AggCoreLine(c, i, k, cl);
    } else {
      var s := c.servers - 1;
      i := Iface(Tor(0, 0), s, Address(1, 0, 0, 4 * s + 1));
      assert ServerLine(c, i, 0, 0, s);
    }
  }
}

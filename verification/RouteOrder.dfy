/** Routes, their order in the table, and which of them an equal-cost lookup collects
    (IFlowRoutingTable.cc, ECMPRoutingTable.cc). */
module RouteOrder {
  import opened Bits

  type Address = Word

  /** The fields of a route object that the table reads. */
  datatype Route = Route(destination: Address, netmask: Address, gateway: Address, adminDist: int, metric: int,
                         iface: nat, fromInterface: bool, valid: bool)

  /** Ones followed by zeros. */
  predicate ValidNetmask(m: Address) { exists a :: 0 <= a <= 32 && m == Ones(32, a) }

  /** No bit of the destination is outside the netmask. */
  predicate WellFormed(r: Route) { ValidNetmask(r.netmask) && And(r.destination, Not(r.netmask)) == 0 }

  /** maskedAddrAreEqual */
  predicate Matches(dest: Address, r: Route) { And(dest, r.netmask) == And(r.destination, r.netmask) }

  /** routeLessThan: longer prefixes, then smaller destinations, distances and metrics. */
  predicate Less(a: Route, b: Route) {
    if a.netmask != b.netmask then a.netmask > b.netmask
    else if a.destination != b.destination then a.destination < b.destination
    else if a.adminDist != b.adminDist then a.adminDist < b.adminDist
    else a.metric < b.metric
  }

  lemma LessIsOrder(a: Route, b: Route, c: Route)
    ensures Less(a, b) ==> !Less(b, a)
    ensures !Less(b, a) && !Less(c, b) ==> !Less(c, a)
  {
  }

  lemma MaskedDestination(r: Route)
    requires WellFormed(r)
    ensures And(r.destination, r.netmask) == r.destination
  {
    AndNot(r.destination, r.netmask);
  }

  lemma ShorterMask(long: Address, short: Address)
    requires ValidNetmask(long) && ValidNetmask(short) && short <= long
    ensures And(long, short) == short
  {
    var a :| 0 <= a <= 32 && long == Ones(32, a);
    var b :| 0 <= b <= 32 && short == Ones(32, b);
    OnesIs(32, a);
    OnesIs(32, b);
    if b < a { PowGrows(b, a); }
    AndMasks(32, if a <= b then a else b, b);
  }

  lemma {:induction false} PowGrows(m: nat, n: nat)
    requires m < n
    ensures Pow2(m) < Pow2(n)
  {
    if m < n - 1 { PowGrows(m, n - 1); }
  }

  /** A route to the same destination under a shorter netmask matches what the longer one does. */
  lemma SameDestinationMatches(dest: Address, long: Route, short: Route)
    requires WellFormed(long) && WellFormed(short) && short.netmask <= long.netmask
    requires long.destination == short.destination && Matches(dest, long)
    ensures Matches(dest, short)
  {
    MaskedDestination(long);
    ShorterMask(long.netmask, short.netmask);
    AndAssociates(dest, long.netmask, short.netmask);
  }

  // ---- the table: route handles and what they stand for ----

  type Handle = nat

  predicate AtMost(data: map<Handle, Route>, a: Handle, b: Handle)
    requires a in data && b in data
  {
    !Less(data[b], data[a])
  }

  predicate Known(routes: seq<Handle>, data: map<Handle, Route>) { forall h :: h in routes ==> h in data }

  predicate Sorted(routes: seq<Handle>, data: map<Handle, Route>)
    requires Known(routes, data)
  {
    forall i, j {:trigger AtMost(data, routes[i], routes[j])} ::
      0 <= i < j < |routes| ==> AtMost(data, routes[i], routes[j])
  }

  predicate Differ(s: seq<Handle>, i: int, j: int)
    requires 0 <= i < j < |s|
  {
    s[i] != s[j]
  }

  predicate NoDuplicates(s: seq<Handle>) { forall i, j :: 0 <= i < j < |s| ==> Differ(s, i, j) }

  /** Sorted handles of well-formed routes, none twice. */
  predicate TableOk(routes: seq<Handle>, data: map<Handle, Route>) {
    && Known(routes, data) && Sorted(routes, data) && NoDuplicates(routes)
    && forall h :: h in routes ==> WellFormed(data[h])
  }

  /** Of two routes with one netmask and one destination the nearer is listed first, and of
      two equally near the one with the lower metric. */
  lemma NearerFirst(routes: seq<Handle>, data: map<Handle, Route>, i: nat, j: nat)
    requires TableOk(routes, data) && i < j < |routes|
    ensures data[routes[i]].netmask >= data[routes[j]].netmask
    ensures var a, b := data[routes[i]], data[routes[j]];
      a.netmask == b.netmask ==>
        && a.destination <= b.destination
        && (a.destination == b.destination ==>
              a.adminDist <= b.adminDist && (a.adminDist == b.adminDist ==> a.metric <= b.metric))
  {
    assert AtMost(data, routes[i], routes[j]);
  }

  // ---- insertion and removal ----

  /** upper_bound: the first entry that `r` precedes. */
  function UpperBound(routes: seq<Handle>, data: map<Handle, Route>, r: Route): (p: nat)
    requires Known(routes, data)
    ensures p <= |routes|
    ensures forall i :: 0 <= i < p ==> !Less(r, data[routes[i]])
    ensures p < |routes| ==> Less(r, data[routes[p]])
  {
    if routes == [] then 0
    else if Less(r, data[routes[0]]) then 0
    else
      assert forall h :: h in routes[1..] ==> h in routes;
      var p := UpperBound(routes[1..], data, r);
      assert forall i :: 0 < i < p + 1 ==> routes[i] == routes[1..][i - 1];
      p + 1
  }

  function InsertAt(routes: seq<Handle>, p: nat, h: Handle): seq<Handle>
    requires p <= |routes|
  {
    routes[..p] + [h] + routes[p..]
  }

  function Inserted(routes: seq<Handle>, data: map<Handle, Route>, h: Handle): seq<Handle>
    requires Known(routes, data) && h in data
  {
    InsertAt(routes, UpperBound(routes, data, data[h]), h)
  }

  lemma InsertedAt(routes: seq<Handle>, p: nat, h: Handle, i: nat)
    requires p <= |routes| && i <= |routes|
    ensures |InsertAt(routes, p, h)| == |routes| + 1
    ensures InsertAt(routes, p, h)[i] == if i < p then routes[i] else if i == p then h else routes[i - 1]
  {
  }

  lemma InsertedMembers(routes: seq<Handle>, p: nat, h: Handle)
    requires p <= |routes|
    ensures forall x :: x in InsertAt(routes, p, h) <==> x == h || x in routes
  {
    assert routes == routes[..p] + routes[p..];
  }

  lemma InsertKeepsOrder(routes: seq<Handle>, data: map<Handle, Route>, h: Handle)
    requires TableOk(routes, data) && h in data && h !in routes && WellFormed(data[h])
    ensures TableOk(Inserted(routes, data, h), data)
    ensures forall x :: x in Inserted(routes, data, h) <==> x == h || x in routes
  {
    InsertedMembers(routes, UpperBound(routes, data, data[h]), h);
    InsertedSorted(routes, data, h);
  }

  lemma InsertedSorted(routes: seq<Handle>, data: map<Handle, Route>, h: Handle)
    requires Known(routes, data) && Sorted(routes, data) && NoDuplicates(routes) && h in data && h !in routes
    requires Known(Inserted(routes, data, h), data)
    ensures Sorted(Inserted(routes, data, h), data) && NoDuplicates(Inserted(routes, data, h))
  {
    var p := UpperBound(routes, data, data[h]);
    var r := InsertAt(routes, p, h);
    forall i, j | 0 <= i < j < |r|
      ensures AtMost(data, r[i], r[j]) && Differ(r, i, j)
    {
      InsertedPair(routes, data, h, p, i, j);
    }
  }

  lemma InsertedPair(routes: seq<Handle>, data: map<Handle, Route>, h: Handle, p: nat, i: nat, j: nat)
    requires Known(routes, data) && Sorted(routes, data) && NoDuplicates(routes)
    requires h in data && h !in routes && p == UpperBound(routes, data, data[h])
    requires i < j <= |routes|
    ensures var r := InsertAt(routes, p, h);
            |r| == |routes| + 1 && r[i] in data && r[j] in data && AtMost(data, r[i], r[j]) && Differ(r, i, j)
  {
    InsertedAt(routes, p, h, i);
    InsertedAt(routes, p, h, j);
    if i != p && j != p {
      var i', j' := if i < p then i else i - 1, if j < p then j else j - 1;
      assert AtMost(data, routes[i'], routes[j']) && Differ(routes, i', j');
    } else if i == p {
      if j - 1 != p { assert AtMost(data, routes[p], routes[j - 1]); }
      LessIsOrder(data[h], data[routes[p]], data[routes[j - 1]]);
    }
  }

  /** The table with some handles taken out. */
  function Kept(routes: seq<Handle>, keep: set<Handle>): (r: seq<Handle>)
    ensures forall x :: x in r <==> x in routes && x in keep
  {
    if routes == [] then []
    else if routes[0] in keep then [routes[0]] + Kept(routes[1..], keep)
    else Kept(routes[1..], keep)
  }

  lemma TailOk(routes: seq<Handle>, data: map<Handle, Route>)
    requires TableOk(routes, data) && routes != []
    ensures TableOk(routes[1..], data)
    ensures forall x :: x in routes[1..] ==> x != routes[0] && AtMost(data, routes[0], x)
  {
    var t := routes[1..];
    forall i, j | 0 <= i < j < |t|
      ensures AtMost(data, t[i], t[j]) && Differ(t, i, j)
    {
      assert AtMost(data, routes[i + 1], routes[j + 1]) && Differ(routes, i + 1, j + 1);
    }
    forall x | x in t
      ensures x != routes[0] && AtMost(data, routes[0], x)
    {
      var i :| 0 <= i < |t| && t[i] == x;
      assert AtMost(data, routes[0], routes[i + 1]) && Differ(routes, 0, i + 1);
    }
  }

  lemma {:induction false} KeptOk(routes: seq<Handle>, data: map<Handle, Route>, keep: set<Handle>)
    requires TableOk(routes, data)
    ensures TableOk(Kept(routes, keep), data)
  {
    if routes != [] {
      TailOk(routes, data);
      KeptOk(routes[1..], data, keep);
      if routes[0] in keep { PrependOk(Kept(routes[1..], keep), data, routes[0]); }
    }
  }

  lemma PrependOk(t: seq<Handle>, data: map<Handle, Route>, h: Handle)
    requires TableOk(t, data) && h in data && WellFormed(data[h])
    requires forall x :: x in t ==> x != h && AtMost(data, h, x)
    ensures TableOk([h] + t, data)
  {
    var r := [h] + t;
    forall i, j | 0 <= i < j < |r|
      ensures AtMost(data, r[i], r[j]) && Differ(r, i, j)
    {
      if i > 0 { assert AtMost(data, t[i - 1], t[j - 1]) && Differ(t, i - 1, j - 1); }
    }
  }

  /** Changing routes that are not in the table changes nothing. */
  lemma OthersOk(routes: seq<Handle>, data: map<Handle, Route>, data': map<Handle, Route>)
    requires TableOk(routes, data)
    requires forall h :: h in routes ==> h in data' && data'[h] == data[h]
    ensures TableOk(routes, data')
  {
    forall i, j | 0 <= i < j < |routes|
      ensures AtMost(data', routes[i], routes[j])
    {
      assert AtMost(data, routes[i], routes[j]);
    }
  }
}

/** The equal-cost lookup (findBestMatchingRoute in ECMPRoutingTable.cc): what a scan of the
    table collects, when that is the valid longest-prefix matches, and which one is chosen. */
module Ecmp {
  import opened Bits
  import opened RouteOrder

  /** A table entry: the handle of a route object and its fields. */
  datatype Entry = Entry(handle: Handle, route: Route)

  predicate Candidate(dest: Address, e: Entry) { e.route.valid && Matches(dest, e.route) }

  predicate Elsewhere(e: Entry, d: Address) { e.route.valid && e.route.destination != d }

  function Last(s: seq<Entry>): Entry
    requires s != []
  {
    s[|s| - 1]
  }

  /** The scan: valid matching routes are collected until a valid route has another
      destination than the last one collected. */
  function Collect(table: seq<Entry>, dest: Address, best: seq<Entry>): seq<Entry> {
    if table == [] then best
    else if best != [] && Elsewhere(table[0], Last(best).route.destination) then best
    else Collect(table[1..], dest, if Candidate(dest, table[0]) then best + [table[0]] else best)
  }

  /** The first candidate, or the end. */
  function FirstMatch(table: seq<Entry>, dest: Address): (f: nat)
    ensures f <= |table|
    ensures forall i :: 0 <= i < f ==> !Candidate(dest, table[i])
    ensures f < |table| ==> Candidate(dest, table[f])
  {
    if table == [] || Candidate(dest, table[0]) then 0 else FirstMatch(table[1..], dest) + 1
  }

  /** How far the scan goes on while valid routes have destination `d`. */
  function Stretch(table: seq<Entry>, d: Address): (g: nat)
    ensures g <= |table|
    ensures forall i :: 0 <= i < g ==> !Elsewhere(table[i], d)
    ensures g < |table| ==> Elsewhere(table[g], d)
  {
    if table == [] || Elsewhere(table[0], d) then 0 else Stretch(table[1..], d) + 1
  }

  /** The candidates among some entries, in order. */
  function Candidates(table: seq<Entry>, dest: Address): (r: seq<Entry>)
    ensures forall e :: e in r <==> e in table && Candidate(dest, e)
  {
    if table == [] then []
    else if Candidate(dest, table[0]) then [table[0]] + Candidates(table[1..], dest)
    else Candidates(table[1..], dest)
  }

  predicate AllTo(best: seq<Entry>, d: Address) { forall e :: e in best ==> e.route.destination == d }

  lemma CandidatesStep(table: seq<Entry>, g: nat, dest: Address)
    requires 0 < g <= |table|
    ensures Candidates(table[..g], dest)
         == (if Candidate(dest, table[0]) then [table[0]] else []) + Candidates(table[1..][..g - 1], dest)
  {
    assert table[..g][1..] == table[1..][..g - 1];
  }

  /** Once something is collected the scan takes the candidates of one stretch. */
  lemma {:induction false} CollectStretch(table: seq<Entry>, dest: Address, best: seq<Entry>, d: Address)
    requires best != [] && AllTo(best, d)
    ensures Collect(table, dest, best) == best + Candidates(table[..Stretch(table, d)], dest)
  {
    var g := Stretch(table, d);
    if g > 0 {
      CandidatesStep(table, g, dest);
      CollectStretch(table[1..], dest, if Candidate(dest, table[0]) then best + [table[0]] else best, d);
      var rest := Candidates(table[1..][..g - 1], dest);
      assert best + ([table[0]] + rest) == (best + [table[0]]) + rest;
    } else {
      assert table[..0] == [];
    }
  }

  lemma CollectFirst(table: seq<Entry>, dest: Address)
    requires table != [] && Candidate(dest, table[0])
    ensures Collect(table, dest, []) == Collect(table[1..], dest, [table[0]])
  {
    assert [] + [table[0]] == [table[0]];
  }

  lemma CollectFrom(table: seq<Entry>, dest: Address)
    requires table != [] && Candidate(dest, table[0])
    ensures var g := Stretch(table, table[0].route.destination);
            Collect(table, dest, []) == Candidates(table[..g], dest)
  {
    var d := table[0].route.destination;
    var g := Stretch(table, d);
    CollectFirst(table, dest);
    CollectStretch(table[1..], dest, [table[0]], d);
    CandidatesStep(table, g, dest);
  }

  /** The whole scan: the candidates from the first one on, as far as its stretch goes. */
  lemma {:induction false} CollectIs(table: seq<Entry>, dest: Address)
    ensures var f := FirstMatch(table, dest);
            Collect(table, dest, []) ==
              if f == |table| then []
              else Candidates(table[f..][..Stretch(table[f..], table[f].route.destination)], dest)
  {
    if table != [] {
      var f := FirstMatch(table, dest);
      if f == 0 {
        CollectFrom(table, dest);
        assert table[0..] == table;
      } else {
        CollectIs(table[1..], dest);
        assert table[f..] == table[1..][f - 1..];
      }
    }
  }

  // ---- longest prefixes ----

  predicate InOrder(a: Entry, b: Entry) { !Less(b.route, a.route) }

  predicate Ascending(table: seq<Entry>) {
    forall i, j {:trigger InOrder(table[i], table[j])} :: 0 <= i < j < |table| ==> InOrder(table[i], table[j])
  }

  predicate SortedTable(table: seq<Entry>) { Ascending(table) && forall e :: e in table ==> WellFormed(e.route) }

  /** A valid match with the longest prefix there is (section 5.2.4.3 of RFC 1812). */
  predicate Longest(table: seq<Entry>, dest: Address, e: Entry) {
    && e in table && Candidate(dest, e)
    && forall x :: x in table && Candidate(dest, x) ==> x.route.netmask <= e.route.netmask
  }

  /** The scan runs past the longest prefix: a valid route under a shorter netmask but with
      the same destination comes before any valid route with another one. */
  predicate Overruns(table: seq<Entry>, dest: Address) {
    var f := FirstMatch(table, dest);
    f < |table| && Spills(table[f..])
  }

  predicate Spills(tail: seq<Entry>)
    requires tail != []
  {
    var r := tail[0].route;
    exists k :: 0 <= k < Stretch(tail, r.destination) && tail[k].route.valid && tail[k].route.netmask != r.netmask
  }

  lemma FirstIsLongest(table: seq<Entry>, dest: Address, f: nat, x: Entry)
    requires Ascending(table) && f == FirstMatch(table, dest) && x in table && Candidate(dest, x)
    ensures f < |table| && x.route.netmask <= table[f].route.netmask
  {
    var i := NotBeforeFirst(table, dest, f, x);
    if f < i { assert InOrder(table[f], table[i]); }
  }

  lemma NotBeforeFirst(table: seq<Entry>, dest: Address, f: nat, x: Entry) returns (i: nat)
    requires f == FirstMatch(table, dest) && x in table && Candidate(dest, x)
    ensures f <= i < |table| && table[i] == x
  {
    i :| 0 <= i < |table| && table[i] == x;
  }

  lemma InStretch(table: seq<Entry>, f: nat, g: nat, i: nat)
    requires f <= i < |table| && i - f < g <= |table| - f
    ensures table[i] in table[f..][..g]
  {
    assert table[f..][..g][i - f] == table[i];
  }

  /** Between the first match and another under the same netmask there is no other destination. */
  lemma BetweenSame(table: seq<Entry>, dest: Address, f: nat, i: nat, m: nat)
    requires SortedTable(table) && f <= m <= i < |table| && Candidate(dest, table[f]) && Candidate(dest, table[i])
    requires table[i].route.netmask == table[f].route.netmask
    ensures !Elsewhere(table[m], table[f].route.destination)
  {
    MaskedDestination(table[f].route);
    MaskedDestination(table[i].route);
    assert table[f] in table && table[i] in table;
    if f < m { assert InOrder(table[f], table[m]); }
    if m < i { assert InOrder(table[m], table[i]); }
  }

  /** A candidate under the longest netmask is inside the stretch. */
  lemma LongestInStretch(table: seq<Entry>, dest: Address, f: nat, x: Entry)
    requires SortedTable(table) && f == FirstMatch(table, dest) && f < |table| && x in table && Candidate(dest, x)
    requires x.route.netmask == table[f].route.netmask
    ensures x in table[f..][..Stretch(table[f..], table[f].route.destination)]
  {
    var g := Stretch(table[f..], table[f].route.destination);
    var i := NotBeforeFirst(table, dest, f, x);
    StretchReaches(table, dest, f, i, g);
    InStretch(table, f, g, i);
  }

  lemma StretchReaches(table: seq<Entry>, dest: Address, f: nat, i: nat, g: nat)
    requires SortedTable(table) && f <= i < |table| && Candidate(dest, table[f]) && Candidate(dest, table[i])
    requires table[i].route.netmask == table[f].route.netmask && g == Stretch(table[f..], table[f].route.destination)
    ensures i - f < g
  {
    if f + g <= i {
      BetweenSame(table, dest, f, i, f + g);
    }
  }

  /** The scan collects all longest matches, and exactly these unless it overruns. */
  lemma CollectsLongest(table: seq<Entry>, dest: Address)
    requires SortedTable(table)
    ensures forall e :: Longest(table, dest, e) ==> e in Collect(table, dest, [])
    ensures (forall e :: e in Collect(table, dest, []) <==> Longest(table, dest, e)) <==> !Overruns(table, dest)
  {
    CollectIs(table, dest);
    var f, c := FirstMatch(table, dest), Collect(table, dest, []);
    forall e | Longest(table, dest, e)
      ensures e in c
    {
      FirstIsLongest(table, dest, f, e);
      LongestInStretch(table, dest, f, e);
    }
    if f < |table| {
      if Overruns(table, dest) {
        var e := SpilledIsCollected(table, dest, f);
      } else {
        forall e | e in c
          ensures Longest(table, dest, e)
        {
          CollectedIsLongest(table, dest, f, e);
        }
      }
    } else {
      NoneIsLongest(table, dest);
    }
  }

  lemma NoneIsLongest(table: seq<Entry>, dest: Address)
    requires FirstMatch(table, dest) == |table|
    ensures forall e :: !Longest(table, dest, e)
  {
  }

  lemma SpilledIsCollected(table: seq<Entry>, dest: Address, f: nat) returns (e: Entry)
    requires SortedTable(table) && f == FirstMatch(table, dest) && Overruns(table, dest)
    ensures e in Candidates(table[f..][..Stretch(table[f..], table[f].route.destination)], dest)
    ensures !Longest(table, dest, e)
  {
    var tail := table[f..];
    var r := tail[0].route;
    var g := Stretch(tail, r.destination);
    var k :| 0 <= k < g && tail[k].route.valid && tail[k].route.netmask != r.netmask;
    e := tail[k];
    assert e == table[f + k];
    assert InOrder(table[f], table[f + k]);
    SameDestinationMatches(dest, r, e.route);
    assert tail[..g][k] == e;
    assert table[f] in table && Candidate(dest, table[f]);
  }

  lemma CollectedIsLongest(table: seq<Entry>, dest: Address, f: nat, e: Entry)
    requires SortedTable(table) && f == FirstMatch(table, dest) && f < |table| && !Overruns(table, dest)
    requires e in Candidates(table[f..][..Stretch(table[f..], table[f].route.destination)], dest)
    ensures Longest(table, dest, e)
  {
    var tail := table[f..];
    var g := Stretch(tail, tail[0].route.destination);
    var k :| 0 <= k < g && tail[..g][k] == e;
    assert tail[k] == e && tail[k].route.netmask == tail[0].route.netmask;
    assert table[f + k] == e;
    forall x | x in table && Candidate(dest, x)
      ensures x.route.netmask <= e.route.netmask
    {
      FirstIsLongest(table, dest, f, x);
    }
  }

  predicate SamePrefix(a: Route, b: Route) {
    a.valid && b.valid && a.destination == b.destination ==> a.netmask == b.netmask
  }

  /** No two valid routes to one destination have different netmasks. */
  predicate NoSharedDestination(table: seq<Entry>) {
    forall a, b :: a in table && b in table ==> SamePrefix(a.route, b.route)
  }

  lemma NotSharedNotOverrun(table: seq<Entry>, dest: Address)
    requires NoSharedDestination(table)
    ensures !Overruns(table, dest)
  {
    var f := FirstMatch(table, dest);
    if f < |table| {
      var tail := table[f..];
      forall k | 0 <= k < Stretch(tail, tail[0].route.destination) && tail[k].route.valid
        ensures tail[k].route.netmask == tail[0].route.netmask
      {
        assert tail[0] in table && tail[k] in table && SamePrefix(tail[0].route, tail[k].route);
      }
    }
  }

  /** Two routes to one destination under different netmasks: a lookup of that destination
      collects both, though the second is not a longest match. */
  lemma TwoPrefixes(a: Entry, b: Entry, d: Address)
    requires WellFormed(a.route) && WellFormed(b.route) && a.route.valid && b.route.valid
    requires a.route.destination == d == b.route.destination && a.route.netmask > b.route.netmask
    ensures SortedTable([a, b]) && Collect([a, b], d, []) == [a, b] && !Longest([a, b], d, b)
  {
    assert [a, b][1..] == [b] && [a] + [b] == [a, b] && [] + [a] == [a];
    assert Candidate(d, a) && Candidate(d, b) && [b][1..] == [];
    assert Collect([b], d, [a]) == Collect([], d, [a, b]) == [a, b];
    assert InOrder(a, b) && a in [a, b];
  }

  /** 128.0.0.0 under /2 and under /1. */
  lemma OverrunExample(a: Entry, b: Entry)
    requires a == Entry(0, Route(0x8000_0000, 0xC000_0000, 1, 0, 0, 1, false, true))
    requires b == Entry(1, Route(0x8000_0000, 0x8000_0000, 2, 0, 0, 1, false, true))
    ensures Collect([a, b], 0x8000_0000, []) == [a, b] && !Longest([a, b], 0x8000_0000, b)
    ensures Overruns([a, b], 0x8000_0000)
  {
    ExampleMasks(0x8000_0000, 0xC000_0000);
    TwoPrefixes(a, b, 0x8000_0000);
    assert b in [a, b];
    CollectsLongest([a, b], 0x8000_0000);
  }

  lemma ExampleMasks(d: Address, m2: Address)
    requires d == 0x8000_0000 && m2 == 0xC000_0000
    ensures ValidNetmask(d) && ValidNetmask(m2) && And(d, Not(d)) == 0 && And(d, Not(m2)) == 0
  {
    OnesIs(32, 31);
    OnesIs(32, 30);
    Pow2Word();
    assert 2 * Pow2(31) == Pow2(32) && 2 * Pow2(30) == Pow2(31);
    assert d == Ones(32, 31) && m2 == Ones(32, 30);
    AndMasks(32, 30, 31);
    AndMasks(32, 31, 31);
    AndCommutes(d, m2);
    AndNot(d, d);
    AndNot(d, m2);
  }
}

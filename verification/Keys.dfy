/** Strict orders on four-part keys (CompareBytesToGrant, SRBF) and sorted positions. */
module Keys {
  datatype Key = Key(a: int, b: int, c: int, d: int)

  predicate Less(k: Key, l: Key) {
    || k.a < l.a
    || (k.a == l.a && k.b < l.b)
    || (k.a == l.a && k.b == l.b && k.c < l.c)
    || (k.a == l.a && k.b == l.b && k.c == l.c && k.d < l.d)
  }

  predicate Sorted(ks: seq<Key>) {
    forall i, j {:trigger Less(ks[i], ks[j])} :: 0 <= i < j < |ks| ==> Less(ks[i], ks[j])
  }

  /** Position of the first key greater than `k`, as std::upper_bound finds it. */
  function UpperBound(ks: seq<Key>, k: Key): (r: nat)
    ensures r <= |ks|
    ensures forall i :: 0 <= i < r ==> !Less(k, ks[i])
    ensures r < |ks| ==> Less(k, ks[r])
  {
    if ks == [] || Less(k, ks[0]) then 0 else 1 + UpperBound(ks[1..], k)
  }

  /** Position of the first key not less than `k`, as std::lower_bound finds it. */
  function LowerBound(ks: seq<Key>, k: Key): (r: nat)
    ensures r <= |ks|
    ensures forall i :: 0 <= i < r ==> Less(ks[i], k)
    ensures r < |ks| ==> !Less(ks[r], k)
  {
    if ks == [] || !Less(ks[0], k) then 0 else 1 + LowerBound(ks[1..], k)
  }

  lemma UpperBoundUnique(ks: seq<Key>, k: Key, r: nat)
    requires Sorted(ks) && r <= |ks|
    requires forall i :: 0 <= i < r ==> !Less(k, ks[i])
    requires r < |ks| ==> Less(k, ks[r])
    ensures UpperBound(ks, k) == r
  {
    var u := UpperBound(ks, k);
    assert u < |ks| ==> ks[u] == ks[u];
  }

  /** A listed key is found at its own place. */
  lemma LowerBoundFinds(ks: seq<Key>, j: nat)
    requires Sorted(ks) && j < |ks|
    ensures LowerBound(ks, ks[j]) == j
  {
    assert LowerBound(ks, ks[j]) <= j;
  }

  lemma InsertSorted(ks: seq<Key>, k: Key)
    requires Sorted(ks) && k !in ks
    ensures var r := UpperBound(ks, k); Sorted(ks[..r] + [k] + ks[r..])
  {
    var r := UpperBound(ks, k);
    var l := ks[..r] + [k] + ks[r..];
    forall i, j | 0 <= i < j < |l|
      ensures Less(l[i], l[j])
    {
      if i < r && j == r { assert l[i] == ks[i] && ks[i] in ks; }
      if i == r { assert l[j] == ks[j - 1] && (r < j - 1 ==> Less(ks[r], ks[j - 1])); }
    }
  }

  lemma RemoveSorted(ks: seq<Key>, j: nat)
    requires Sorted(ks) && j < |ks|
    ensures Sorted(ks[..j] + ks[j + 1..])
    ensures ks[j] !in ks[..j] + ks[j + 1..]
    ensures UpperBound(ks[..j] + ks[j + 1..], ks[j]) == j
  {
    var l := ks[..j] + ks[j + 1..];
    assert forall i :: 0 <= i < |l| ==> l[i] == if i < j then ks[i] else ks[i + 1];
    assert Sorted(l);
    forall i | 0 <= i < |l|
      ensures if i < j then Less(l[i], ks[j]) else Less(ks[j], l[i])
    {
    }
    UpperBoundUnique(l, ks[j], j);
  }

  /** A smaller key is never placed later. */
  lemma UpperBoundMonotone(ks: seq<Key>, k: Key, l: Key)
    requires Sorted(ks) && (k == l || Less(k, l))
    ensures UpperBound(ks, k) <= UpperBound(ks, l)
  {
    var u := UpperBound(ks, l);
    if u < |ks| {
      assert Less(k, ks[u]);
    }
  }
}

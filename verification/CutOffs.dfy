/** How the resolver chooses the message sizes at which the priority changes
    (setPrioCutOffs in PriorityResolver.cc). */
module CutOffs {
  import opened Priority

  /** A point of a distribution: the share of messages or bytes up to a size. */
  datatype Point = Point(size: nat, prob: real)

  const EPSILON: real := 0.000001

  predicate IsLess(a: real, b: real) { a + EPSILON < b }

  predicate IsEqual(a: real, b: real) { -EPSILON < a - b < EPSILON }

  /** Sizes below UINT32_MAX that do not fall, though they may repeat, and one as the last share. */
  predicate Distribution(vec: seq<Point>) {
    && vec != [] && IsEqual(vec[|vec| - 1].prob, 1.0)
    && (forall i :: 0 <= i < |vec| ==> vec[i].size < UINT32_MAX)
    && (forall i, j :: 0 <= i < j < |vec| ==> vec[i].size <= vec[j].size)
  }

  // ---- the thresholds ----

  function Pow(x: real, n: nat): real { if n == 0 then 1.0 else Pow(x, n - 1) * x }

  /** 1 + x + ... + x^(n-1) */
  function Geometric(x: real, n: nat): real { if n == 0 then 0.0 else Geometric(x, n - 1) + Pow(x, n - 1) }

  lemma {:induction false} PowPositive(x: real, n: nat)
    requires x > 0.0
    ensures Pow(x, n) > 0.0
  {
    if n > 0 { PowPositive(x, n - 1); }
  }

  lemma {:induction false} GeometricGrows(x: real, m: nat, n: nat)
    requires x > 0.0 && m <= n
    ensures Geometric(x, n) >= Geometric(x, m)
    ensures m < n ==> Geometric(x, n) > Geometric(x, m)
  {
    if m < n {
      GeometricGrows(x, m, n - 1);
      PowPositive(x, n - 1);
    }
  }

  lemma {:induction false} GeometricSum(x: real, n: nat)
    ensures (1.0 - x) * Geometric(x, n) == 1.0 - Pow(x, n)
  {
    if n > 0 { GeometricSum(x, n - 1); }
  }

  lemma {:induction false} PlainSum(n: nat)
    ensures Geometric(1.0, n) == n as real && Pow(1.0, n) == 1.0
  {
    if n > 0 { PlainSum(n - 1); }
  }

  /** The first step: each priority's share is `fac` times the one before. */
  function FirstStep(fac: real, levels: nat): real
    requires fac > 0.0 && levels > 0
  {
    if fac == 1.0 then 1.0 / levels as real
    else
      GeometricSum(fac, levels); GeometricGrows(fac, 0, levels);
      NonZeroProduct(1.0 - fac, Geometric(fac, levels));
      (1.0 - fac) / (1.0 - Pow(fac, levels))
  }

  lemma NonZeroProduct(a: real, b: real)
    requires a != 0.0 && b != 0.0
    ensures a * b != 0.0
  {
  }

  /** The shares add up to one. */
  lemma StepsFill(fac: real, levels: nat)
    requires fac > 0.0 && levels > 0
    ensures FirstStep(fac, levels) > 0.0
    ensures FirstStep(fac, levels) * Geometric(fac, levels) == 1.0
  {
    GeometricGrows(fac, 0, levels);
    if fac == 1.0 {
      PlainSum(levels);
    } else {
      GeometricSum(fac, levels);
      Ratio(1.0 - fac, Geometric(fac, levels), 1.0 - Pow(fac, levels));
    }
  }

  lemma Ratio(a: real, g: real, b: real)
    requires a * g == b && g > 0.0 && a != 0.0 && b != 0.0
    ensures (a / b) * g == 1.0 && a / b > 0.0
  {
    var q := a / b;
    assert q * b == a;
    Cancel(a, g, b, q);
    Cancelled(q, g);
  }

  lemma Cancel(a: real, g: real, b: real, q: real)
    requires b == a * g && q * b == a && a != 0.0
    ensures q * g == 1.0
  {
    assert a * (q * g) == q * (a * g);
    if q * g != 1.0 {
      NonZeroProduct(a, q * g - 1.0);
    }
  }

  lemma Cancelled(q: real, g: real)
    requires q * g == 1.0 && g > 0.0
    ensures q > 0.0
  {
  }

  /** The share up to which the first `k` priorities serve. */
  function Threshold(fac: real, levels: nat, k: nat): real
    requires fac > 0.0 && levels > 0
  {
    FirstStep(fac, levels) * Geometric(fac, k)
  }

  lemma NextThreshold(fac: real, levels: nat, k: nat)
    requires fac > 0.0 && levels > 0
    ensures Threshold(fac, levels, k + 1) == Threshold(fac, levels, k) + FirstStep(fac, levels) * Pow(fac, k)
    ensures Threshold(fac, levels, k + 1) > Threshold(fac, levels, k)
  {
    var step, g, p := FirstStep(fac, levels), Geometric(fac, k), Pow(fac, k);
    StepsFill(fac, levels);
    PowPositive(fac, k);
    assert step * (g + p) == step * g + step * p;
  }

  lemma {:induction false} ThresholdsRise(fac: real, levels: nat, j: nat, k: nat)
    requires fac > 0.0 && levels > 0 && j <= k
    ensures Threshold(fac, levels, j) <= Threshold(fac, levels, k)
    decreases k
  {
    if j < k {
      ThresholdsRise(fac, levels, j, k - 1);
      NextThreshold(fac, levels, k - 1);
    }
  }

  lemma NextStep(fac: real, levels: nat, k: nat, step: real)
    requires fac > 0.0 && levels > 0 && step == FirstStep(fac, levels) * Pow(fac, k)
    ensures step * fac == FirstStep(fac, levels) * Pow(fac, k + 1)
  {
    assert (FirstStep(fac, levels) * Pow(fac, k)) * fac == FirstStep(fac, levels) * (Pow(fac, k) * fac);
  }

  /** All thresholds: `t[0] == 0`, and the last is one. */
  ghost function Thresholds(fac: real, levels: nat): (t: seq<real>)
    requires fac > 0.0 && levels > 0
    ensures |t| == levels + 1
  {
    seq(levels + 1, k requires 0 <= k <= levels => Threshold(fac, levels, k))
  }

  /** How much threshold `k + 1` adds. */
  ghost function Steps(fac: real, levels: nat): (s: seq<real>)
    requires fac > 0.0 && levels > 0
    ensures |s| == levels + 1
  {
    seq(levels + 1, k requires 0 <= k <= levels => FirstStep(fac, levels) * Pow(fac, k))
  }

  ghost predicate RampAt(fac: real, t: seq<real>, s: seq<real>, k: nat)
    requires |t| == |s| > k + 1
  {
    t[k] < 1.0 && t[k + 1] == t[k] + s[k] && s[k + 1] == s[k] * fac
  }

  /** Thresholds rise to one by steps each of which is `fac` times the one before. */
  ghost predicate Ramp(fac: real, t: seq<real>, s: seq<real>) {
    && |t| == |s| > 1 && t[0] == 0.0 && t[|t| - 1] == 1.0
    && (forall k {:trigger RampAt(fac, t, s, k)} :: 0 <= k < |t| - 1 ==> RampAt(fac, t, s, k))
  }

  lemma ThresholdAt(fac: real, levels: nat, k: nat)
    requires fac > 0.0 && levels > k
    ensures Thresholds(fac, levels)[k + 1] == Thresholds(fac, levels)[k] + Steps(fac, levels)[k]
  {
    NextThreshold(fac, levels, k);
  }

  lemma StepAt(fac: real, levels: nat, k: nat)
    requires fac > 0.0 && levels > k
    ensures Steps(fac, levels)[k + 1] == Steps(fac, levels)[k] * fac
  {
    NextStep(fac, levels, k, FirstStep(fac, levels) * Pow(fac, k));
  }

  lemma BelowOne(fac: real, levels: nat, k: nat)
    requires fac > 0.0 && levels > k
    ensures Thresholds(fac, levels)[k] < 1.0
  {
    NextThreshold(fac, levels, k);
    ThresholdsRise(fac, levels, k + 1, levels);
    StepsFill(fac, levels);
  }

  lemma RampEnds(fac: real, levels: nat)
    requires fac > 0.0 && levels > 0
    ensures Thresholds(fac, levels)[0] == 0.0 && Thresholds(fac, levels)[levels] == 1.0
    ensures Steps(fac, levels)[0] == FirstStep(fac, levels)
  {
    StepsFill(fac, levels);
  }

  lemma ThresholdsAreRamp(fac: real, levels: nat)
    requires fac > 0.0 && levels > 0
    ensures Ramp(fac, Thresholds(fac, levels), Steps(fac, levels))
    ensures Steps(fac, levels)[0] == FirstStep(fac, levels)
  {
    var t, s := Thresholds(fac, levels), Steps(fac, levels);
    RampEnds(fac, levels);
    forall k | 0 <= k < |t| - 1
      ensures RampAt(fac, t, s, k)
    {
      ThresholdAt(fac, levels, k);
      StepAt(fac, levels, k);
      BelowOne(fac, levels, k);
    }
  }

  // ---- the cutoffs ----

  /** Entry `i` has another size than entry `after`, if there is one. */
  predicate NewSize(vec: seq<Point>, after: int, i: int)
    requires -1 <= after < |vec| && 0 <= i < |vec|
  {
    after == -1 || vec[i].size != vec[after].size
  }

  /** Entry `at` is the first after `after` with a new size whose share reaches `prob`. */
  predicate FirstToReach(vec: seq<Point>, prob: real, after: int, at: int) {
    && -1 <= after < at < |vec| && NewSize(vec, after, at) && vec[at].prob >= prob
    && forall i :: after < i < at ==> vec[i].prob < prob || !NewSize(vec, after, i)
  }

  /** The last chosen size is the largest there is. */
  predicate ReachesEnd(vec: seq<Point>, at: seq<int>) {
    0 <= Last(at) < |vec| && vec[Last(at)].size == vec[|vec| - 1].size
  }

  function Last(at: seq<int>): int { if at == [] then -1 else at[|at| - 1] }

  /** The entries chosen for thresholds t[1], t[2], ..., one each, in order. */
  predicate Chosen(vec: seq<Point>, t: seq<real>, at: seq<int>) {
    |at| < |t| && forall k :: 0 <= k < |at| ==> FirstToReach(vec, t[k + 1], Last(at[..k]), at[k])
  }

  predicate SizesAt(vec: seq<Point>, at: seq<int>, sizes: seq<nat>) {
    |sizes| == |at| && forall k :: 0 <= k < |at| ==> 0 <= at[k] < |vec| && sizes[k] == vec[at[k]].size
  }

  lemma ChosenGrows(vec: seq<Point>, t: seq<real>, at: seq<int>, i: int)
    requires Chosen(vec, t, at) && |at| + 1 < |t| && FirstToReach(vec, t[|at| + 1], Last(at), i)
    ensures Chosen(vec, t, at + [i])
  {
    var more := at + [i];
    forall k | 0 <= k < |more|
      ensures FirstToReach(vec, t[k + 1], Last(more[..k]), more[k])
    {
      assert more[..k] == at[..k];
      assert at[..|at|] == at;
      if k < |at| {
        assert FirstToReach(vec, t[k + 1], Last(at[..k]), at[k]);
      }
    }
  }

  lemma NextRises(vec: seq<Point>, t: seq<real>, at: seq<int>, k: nat)
    requires Distribution(vec) && Chosen(vec, t, at) && 0 < k < |at|
    ensures 0 <= at[k - 1] < at[k] < |vec| && vec[at[k - 1]].size < vec[at[k]].size
  {
    assert FirstToReach(vec, t[k], Last(at[..k - 1]), at[k - 1]);
    assert FirstToReach(vec, t[k + 1], Last(at[..k]), at[k]);
    assert Last(at[..k]) == at[k - 1];
  }

  lemma {:induction false} ChosenRises(vec: seq<Point>, t: seq<real>, at: seq<int>, j: nat, k: nat)
    requires Distribution(vec) && Chosen(vec, t, at) && j < k < |at|
    ensures 0 <= at[j] < at[k] < |vec| && vec[at[j]].size < vec[at[k]].size
    decreases k
  {
    NextRises(vec, t, at, k);
    if j < k - 1 { ChosenRises(vec, t, at, j, k - 1); }
  }

  /** The chosen sizes, ended by UINT32_MAX, are cutoffs the binary search can use. */
  lemma ChosenAreValid(vec: seq<Point>, t: seq<real>, at: seq<int>, sizes: seq<nat>)
    requires Distribution(vec) && Chosen(vec, t, at) && SizesAt(vec, at, sizes)
    ensures ValidCutOffs(sizes + [UINT32_MAX])
  {
    var c := sizes + [UINT32_MAX];
    forall i, j | 0 <= i < j < |c|
      ensures c[i] < c[j]
    {
      if j < |at| {
        ChosenRises(vec, t, at, i, j);
      }
    }
  }

  /** The inner loop: the next entry of another size whose share reaches `prob`. */
  method NextReaching(vec: seq<Point>, from: nat, prob: real, prevCutOffSize: nat) returns (i: nat)
    requires from <= |vec|
    ensures from <= i <= |vec|
    ensures forall j :: from <= j < i ==> vec[j].size == prevCutOffSize || vec[j].prob < prob
    ensures i < |vec| ==> vec[i].size != prevCutOffSize && vec[i].prob >= prob
  {
    i := from;
    while i < |vec|
      invariant from <= i <= |vec|
      invariant forall j :: from <= j < i ==> vec[j].size == prevCutOffSize || vec[j].prob < prob
    {
      if vec[i].size != prevCutOffSize && vec[i].prob >= prob {
        return;
      }
      i := i + 1;
    }
  }

  /** Where the search stands once `at` are chosen: at the last of them, or at the end. */
  predicate StandsAt(vec: seq<Point>, at: seq<int>, k: nat, i: int, prevCutOffSize: nat) {
    if |at| == k && i < |vec| then
      if at == [] then i == 0 && prevCutOffSize == UINT32_MAX
      else i == Last(at) && 0 <= i && prevCutOffSize == vec[i].size
    else i == |vec| && ReachesEnd(vec, at)
  }

  /** What the inner loop found is the next choice, or the last entry is taken. */
  lemma FoundNext(vec: seq<Point>, prob: real, at: seq<int>, k: nat, from: int, prev: nat, i: int)
    requires Distribution(vec) && StandsAt(vec, at, k, from, prev)
    requires IsLess(prob, 1.0) && 0 <= from <= i <= |vec|
    requires forall j :: from <= j < i ==> vec[j].size == prev || vec[j].prob < prob
    requires i < |vec| ==> vec[i].size != prev && vec[i].prob >= prob
    ensures i < |vec| ==> |at| == k && FirstToReach(vec, prob, Last(at), i)
    ensures i == |vec| ==> ReachesEnd(vec, at)
  {
    assert vec[|vec| - 1].prob >= prob;
  }

  /** The state of the search after `k` thresholds. */
  ghost predicate Searching(vec: seq<Point>, t: seq<real>, s: seq<real>, k: nat, prob: real, probStep: real,
                            i: int, prevCutOffSize: nat, at: seq<int>, sizes: seq<nat>) {
    && |at| <= k < |t| - 1 == |s| - 1 && prob == t[k + 1] && probStep == s[k]
    && Chosen(vec, t, at) && SizesAt(vec, at, sizes)
    && 0 <= i <= |vec| && StandsAt(vec, at, k, i, prevCutOffSize)
  }

  /** The search goes on, whether the inner loop found an entry or not. */
  lemma SearchOn(vec: seq<Point>, t: seq<real>, s: seq<real>, k: nat, prob: real, step: real, from: int, prev: nat,
                 at: seq<int>, sizes: seq<nat>, i: int)
    requires Distribution(vec) && IsLess(prob, 1.0) && from <= i <= |vec| && k + 2 < |t|
    requires Searching(vec, t, s, k, prob, step, from, prev, at, sizes)
    requires forall j :: from <= j < i ==> vec[j].size == prev || vec[j].prob < prob
    requires i < |vec| ==> vec[i].size != prev && vec[i].prob >= prob
    ensures i < |vec| ==>
              Searching(vec, t, s, k + 1, t[k + 2], s[k + 1], i, vec[i].size, at + [i], sizes + [vec[i].size])
    ensures i == |vec| ==> Searching(vec, t, s, k + 1, t[k + 2], s[k + 1], i, prev, at, sizes)
  {
    FoundNext(vec, prob, at, k, from, prev, i);
    if i < |vec| {
      ChosenGrows(vec, t, at, i);
    }
  }

  lemma NextRamp(fac: real, t: seq<real>, s: seq<real>, k: nat, prob: real, probStep: real)
    requires Ramp(fac, t, s) && k + 1 < |t| && prob == t[k + 1] && probStep == s[k] && IsLess(prob, 1.0)
    ensures k + 2 < |t| && probStep * fac == s[k + 1] && prob + probStep * fac == t[k + 2]
  {
    assert k + 2 < |t|;
    assert RampAt(fac, t, s, k) && RampAt(fac, t, s, k + 1);
  }

  /** The outer loop, given the step to the first threshold. */
  method Percentiles(vec: seq<Point>, fac: real, firstStep: real, ghost t: seq<real>, ghost s: seq<real>)
    returns (cutOffs: seq<nat>, ghost at: seq<int>)
    requires Distribution(vec) && Ramp(fac, t, s) && firstStep == s[0]
    ensures Chosen(vec, t, at) && SizesAt(vec, at, cutOffs) && |at| + 1 < |t|
    ensures !IsLess(t[|at| + 1], 1.0) || ReachesEnd(vec, at)
  {
    cutOffs, at := [], [];
    var probStep := firstStep;
    var prob := probStep;
    var i := 0;
    var prevCutOffSize := UINT32_MAX;
    ghost var k: nat := 0;
    assert RampAt(fac, t, s, 0);
    while IsLess(prob, 1.0)
      invariant Searching(vec, t, s, k, prob, probStep, i, prevCutOffSize, at, cutOffs)
      decreases |t| - k
    {
      NextRamp(fac, t, s, k, prob, probStep);
      var next := NextReaching(vec, i, prob, prevCutOffSize);
      SearchOn(vec, t, s, k, prob, probStep, i, prevCutOffSize, at, cutOffs, next);
      probStep := probStep * fac;
      i := next;
      if i < |vec| {
        cutOffs, prevCutOffSize, at := cutOffs + [vec[i].size], vec[i].size, at + [i];
      }
      prob := prob + probStep;
      k := k + 1;
    }
  }

  /** The cutoffs are those a distribution gives: the sizes at which it first reaches each
      threshold, as long as thresholds are below one and sizes are left, then UINT32_MAX. */
  ghost predicate TakenFrom(vec: seq<Point>, fac: real, levels: nat, cutOffs: seq<nat>)
    requires fac > 0.0 && levels > 0
  {
    exists at {:trigger Chosen(vec, Thresholds(fac, levels), at)} ::
      && Chosen(vec, Thresholds(fac, levels), at)
      && |at| + 1 < |Thresholds(fac, levels)|
      && |cutOffs| == |at| + 1 && SizesAt(vec, at, cutOffs[..|at|]) && cutOffs[|at|] == UINT32_MAX
      && (!IsLess(Thresholds(fac, levels)[|at| + 1], 1.0) || ReachesEnd(vec, at))
  }

  /** The resolver's cutoff list. */
  class PriorityResolver {
    var prioCutOffs: seq<nat>

    constructor ()
      ensures prioCutOffs == []
    {
      prioCutOffs := [];
    }

    /** The cutoffs for a distribution: the sizes at which its share first reaches each
        threshold below one, no size twice, then UINT32_MAX. */
    method SetPercentiles(vec: seq<Point>, fac: real, levels: nat) returns (ghost at: seq<int>)
      requires Distribution(vec) && fac > 0.0 && levels > 0
      modifies this
      ensures ValidCutOffs(prioCutOffs) && |prioCutOffs| == |at| + 1 <= levels
      ensures SizesAt(vec, at, prioCutOffs[..|at|]) && Chosen(vec, Thresholds(fac, levels), at)
      ensures !IsLess(Thresholds(fac, levels)[|at| + 1], 1.0) || ReachesEnd(vec, at)
      ensures TakenFrom(vec, fac, levels, prioCutOffs)
    {
      ThresholdsAreRamp(fac, levels);
      prioCutOffs, at := Percentiles(vec, fac, FirstStep(fac, levels), Thresholds(fac, levels), Steps(fac, levels));
      ChosenAreValid(vec, Thresholds(fac, levels), at, prioCutOffs);
      prioCutOffs := prioCutOffs + [UINT32_MAX];
    }

    /** setPrioCutOffs for the mode; an explicit list only gets UINT32_MAX at its end. */
    method SetPrioCutOffs(mode: PrioMode, explicitCutOffs: seq<nat>, cdf: seq<Point>, cbfLastCapBytes: seq<Point>,
                          remainSizeCbf: seq<Point>, fac: real, levels: nat)
      requires mode.Explicit? ==> explicitCutOffs != [] && StrictlyIncreasing(explicitCutOffs)
      requires mode.Explicit? ==> explicitCutOffs[|explicitCutOffs| - 1] <= UINT32_MAX
      requires mode.CdfUniform? ==> Distribution(cdf)
      requires mode.CbfUniform? ==> Distribution(cbfLastCapBytes)
      requires mode.CbfGraduated? ==> Distribution(remainSizeCbf)
      requires !mode.Explicit? ==> fac > 0.0 && levels > 0
      modifies this
      ensures ValidCutOffs(prioCutOffs)
      ensures !mode.Explicit? ==> |prioCutOffs| <= levels
      ensures mode.Explicit? ==> explicitCutOffs <= prioCutOffs <= explicitCutOffs + [UINT32_MAX]
      ensures mode.CdfUniform? ==> TakenFrom(cdf, fac, levels, prioCutOffs)
      ensures mode.CbfUniform? ==> TakenFrom(cbfLastCapBytes, fac, levels, prioCutOffs)
      ensures mode.CbfGraduated? ==> TakenFrom(remainSizeCbf, fac, levels, prioCutOffs)
    {
      match mode
      case Explicit =>
        prioCutOffs := explicitCutOffs;
        if prioCutOffs[|prioCutOffs| - 1] != UINT32_MAX {
          prioCutOffs := prioCutOffs + [UINT32_MAX];
        }
      case CdfUniform => var _ := SetPercentiles(cdf, fac, levels);
      case CbfUniform => var _ := SetPercentiles(cbfLastCapBytes, fac, levels);
      case CbfGraduated => var _ := SetPercentiles(remainSizeCbf, fac, levels);
    }
  }
}

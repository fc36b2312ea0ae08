/**
 * Set analytics (packages/core/src/utils/calc.ts): volume, the Epley-style
 * estimated one-rep maximum, and record-set selection. Weights are reals.
 */
module Calc {
  import opened Wrappers
  import opened Db

  predicate IsWarmup(s: WorkoutSet) { s.tag == Warmup }

  /** reps × weight, or 0 for a warmup set or a set missing reps or weight. */
  function VolumeForSet(s: WorkoutSet): (v: real)
    ensures IsWarmup(s) || s.reps.None? || s.weight.None? ==> v == 0.0
    ensures !IsWarmup(s) && s.reps.Some? && s.weight.Some? ==> v == s.reps.value as real * s.weight.value
  {
    if IsWarmup(s) then 0.0
    else if s.reps.None? || s.weight.None? then 0.0
    else s.reps.value as real * s.weight.value
  }

  /** reps lies in the range the estimate is defined for, [1, 12]. */
  predicate InEstimateRange(reps: int) { 1 <= reps <= 12 }

  /** weight × (1 + reps/30) for a working set with 1..12 reps; 0 otherwise. */
  function Estimate1RM(s: WorkoutSet): (e: real)
    ensures IsWarmup(s) || s.reps.None? || s.weight.None? || !InEstimateRange(s.reps.value) ==> e == 0.0
    ensures !IsWarmup(s) && s.reps.Some? && s.weight.Some? && InEstimateRange(s.reps.value) ==>
      e == s.weight.value * (1.0 + s.reps.value as real / 30.0)
  {
    if IsWarmup(s) then 0.0
    else if s.reps.None? || s.weight.None? then 0.0
    else if s.reps.value < 1 || s.reps.value > 12 then 0.0
    else s.weight.value * (1.0 + s.reps.value as real / 30.0)
  }

  /** A warmup set contributes nothing, whatever its reps and weight. */
  lemma WarmupContributesNothing(s: WorkoutSet)
    requires IsWarmup(s)
    ensures VolumeForSet(s) == 0.0 && Estimate1RM(s) == 0.0
  {
  }

  /** For a non-negative weight, the estimate is never below the weight actually lifted. */
  lemma EstimateAtLeastWeight(s: WorkoutSet)
    requires !IsWarmup(s) && s.reps.Some? && s.weight.Some? && s.weight.value >= 0.0
    requires InEstimateRange(s.reps.value)
    ensures s.weight.value <= Estimate1RM(s) <= s.weight.value * 1.4
  {
  }

  /** A set the record search considers: not a warmup, and at most 12 reps (absent counts as 0). */
  predicate Eligible(s: WorkoutSet) { !IsWarmup(s) && s.reps.GetOr(0) <= 12 }

  /** `sets.filter(Eligible)`, order kept. */
  function Eligibles(sets: seq<WorkoutSet>): (r: seq<WorkoutSet>)
    ensures forall x :: x in r <==> x in sets && Eligible(x)
    ensures |r| <= |sets|
  {
    if sets == [] then []
    else (if Eligible(sets[0]) then [sets[0]] else []) + Eligibles(sets[1..])
  }

  /** The filter keeps input order: it distributes over concatenation. */
  lemma {:induction false} EligiblesAppend(a: seq<WorkoutSet>, b: seq<WorkoutSet>)
    ensures Eligibles(a + b) == Eligibles(a) + Eligibles(b)
    decreases |a|
  {
    if a == [] {
      assert a + b == b;
    } else {
      assert (a + b)[0] == a[0] && (a + b)[1..] == a[1..] + b;
      EligiblesAppend(a[1..], b);
    }
  }

  /** The weight the record search compares, absent counting as 0. */
  function WeightOrZero(s: WorkoutSet): real { s.weight.GetOr(0.0) }

  /** `xs[k]` has the largest key, and every earlier element a strictly smaller one. */
  ghost predicate IsFirstBest(xs: seq<WorkoutSet>, key: WorkoutSet -> real, k: int) {
    && 0 <= k < |xs|
    && (forall j :: 0 <= j < |xs| ==> key(xs[j]) <= key(xs[k]))
    && (forall j :: 0 <= j < k ==> key(xs[j]) < key(xs[k]))
  }

  /**
   * The left fold `reduce((best, cur) => key(cur) > key(best) ? cur : best, xs[0])`
   * from position `i` with accumulator index `best`.
   */
  function BestFrom(xs: seq<WorkoutSet>, key: WorkoutSet -> real, best: nat, i: nat): (r: nat)
    requires best < |xs| && i <= |xs|
    requires forall j :: 0 <= j < i ==> key(xs[j]) <= key(xs[best])
    requires forall j :: 0 <= j < best ==> key(xs[j]) < key(xs[best])
    ensures IsFirstBest(xs, key, r)
    decreases |xs| - i
  {
    if i == |xs| then best
    else BestFrom(xs, key, if key(xs[i]) > key(xs[best]) then i else best, i + 1)
  }

  datatype RecordResult = RecordResult(bestActual: Option<WorkoutSet>, bestPredicted: Option<WorkoutSet>)

  /**
   * Both records are absent exactly when no set is eligible; otherwise each is an eligible
   * set with maximal key (weight, resp. estimated 1RM), the earliest one on ties.
   */
  function GetRecordSets(sets: seq<WorkoutSet>): (r: RecordResult)
    ensures (forall x :: x in sets ==> !Eligible(x)) <==> r.bestActual.None?
    ensures r.bestActual.None? <==> r.bestPredicted.None?
    ensures r.bestActual.Some? ==>
      exists k :: IsFirstBest(Eligibles(sets), WeightOrZero, k) && Eligibles(sets)[k] == r.bestActual.value
    ensures r.bestPredicted.Some? ==>
      exists k :: IsFirstBest(Eligibles(sets), Estimate1RM, k) && Eligibles(sets)[k] == r.bestPredicted.value
  {
    var f := Eligibles(sets);
    if |f| == 0 then RecordResult(None, None)
    else
      var a := BestFrom(f, WeightOrZero, 0, 0);
      var p := BestFrom(f, Estimate1RM, 0, 0);
      assert f[0] in sets;
      RecordResult(Some(f[a]), Some(f[p]))
  }

  /** The set every example starts from: 5 × 100, completed, normal. */
  function BaseSet(id: string, reps: int, weight: real, tag: SetTag): WorkoutSet {
    WorkoutSet(id, "e1", 0, Some(reps), Some(weight), None, None, true, tag)
  }

  /** 5 × 100 has volume 500 (0 as a warmup) and estimate 116.67 (0 with 15 reps). */
  lemma CalcExamples()
    ensures VolumeForSet(BaseSet("1", 5, 100.0, Normal)) == 500.0
    ensures VolumeForSet(BaseSet("1", 5, 100.0, Warmup)) == 0.0
    ensures Estimate1RM(BaseSet("1", 5, 100.0, Normal)) == 350.0 / 3.0
    ensures 116.6662 < Estimate1RM(BaseSet("1", 5, 100.0, Normal)) < 116.6672
    ensures Estimate1RM(BaseSet("1", 15, 100.0, Normal)) == 0.0
  {
  }

  /** Of a 5 × 100, an 8 × 95 and a 3 × 110 warmup, the first is the actual and the second the predicted record. */
  lemma RecordExample()
    ensures var sets := [BaseSet("a", 5, 100.0, Normal), BaseSet("b", 8, 95.0, Normal), BaseSet("c", 3, 110.0, Warmup)];
            var r := GetRecordSets(sets);
            r.bestActual.Some? && r.bestActual.value.id == "a"
            && r.bestPredicted.Some? && r.bestPredicted.value.id == "b"
  {
    var a, b, c := BaseSet("a", 5, 100.0, Normal), BaseSet("b", 8, 95.0, Normal), BaseSet("c", 3, 110.0, Warmup);
    var sets := [a, b, c];
    assert Eligible(a) && Eligible(b) && !Eligible(c);
    assert [c][1..] == [];
    assert Eligibles([c]) == [];
    assert [b, c][1..] == [c];
    assert Eligibles([b, c]) == [b];
    assert sets[1..] == [b, c];
    assert Eligibles(sets) == [a, b];
    var f := [a, b];
    assert WeightOrZero(a) == 100.0 && WeightOrZero(b) == 95.0;
    assert Estimate1RM(a) == 350.0 / 3.0 && Estimate1RM(b) == 95.0 * (1.0 + 8.0 / 30.0);
    assert BestFrom(f, WeightOrZero, 0, 2) == 0;
    assert BestFrom(f, WeightOrZero, 0, 1) == 0;
    assert BestFrom(f, WeightOrZero, 0, 0) == 0;
    assert BestFrom(f, Estimate1RM, 1, 2) == 1;
    assert BestFrom(f, Estimate1RM, 0, 1) == 1;
    assert BestFrom(f, Estimate1RM, 0, 0) == 1;
  }
}

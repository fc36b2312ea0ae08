/**
 * `calculateVolume` (packages/feature-gym/src/utils/volume.ts): the total of
 * `reps * weightKg` over every set of every exercise, summed left to right as the two
 * nested `reduce` calls do.
 */
module GymVolume {
  import opened Wrappers
  import opened GymContracts

  /** The inner `reduce`: one exercise's sets. */
  function SetsVolume(sets: seq<GymSet>): real {
    if sets == [] then 0.0 else SetsVolume(sets[..|sets| - 1]) + sets[|sets| - 1].reps * sets[|sets| - 1].weightKg
  }

  /** The outer `reduce`: every exercise's set volume. */
  function ExercisesVolume(exercises: seq<GymExercise>): real {
    if exercises == [] then 0.0
    else ExercisesVolume(exercises[..|exercises| - 1]) + SetsVolume(exercises[|exercises| - 1].sets)
  }

  function CalculateVolume(payload: GymPayload): real {
    ExercisesVolume(payload.exercises)
  }

  /** Sets volume splits over concatenation. */
  lemma {:induction false} SetsVolumeAppend(a: seq<GymSet>, b: seq<GymSet>)
    ensures SetsVolume(a + b) == SetsVolume(a) + SetsVolume(b)
    decreases |b|
  {
    if b != [] {
      var n := |b| - 1;
      assert (a + b)[..|a + b| - 1] == a + b[..n];
      SetsVolumeAppend(a, b[..n]);
    } else {
      assert a + b == a;
    }
  }

  /** Volume is additive over concatenated exercise lists. */
  lemma {:induction false} VolumeAppend(a: seq<GymExercise>, b: seq<GymExercise>)
    ensures ExercisesVolume(a + b) == ExercisesVolume(a) + ExercisesVolume(b)
    decreases |b|
  {
    if b != [] {
      var n := |b| - 1;
      assert (a + b)[..|a + b| - 1] == a + b[..n];
      VolumeAppend(a, b[..n]);
    } else {
      assert a + b == a;
    }
  }

  /** No exercises, or only exercises without sets, weigh nothing. */
  lemma {:induction false} NoSetsNoVolume(exercises: seq<GymExercise>)
    requires forall k :: 0 <= k < |exercises| ==> exercises[k].sets == []
    ensures ExercisesVolume(exercises) == 0.0
  {
    if exercises != [] {
      NoSetsNoVolume(exercises[..|exercises| - 1]);
    }
  }

  /** Every set counts: one more set adds exactly its `reps * weightKg`. */
  lemma AddSetVolume(sets: seq<GymSet>, s: GymSet)
    ensures SetsVolume(sets + [s]) == SetsVolume(sets) + s.reps * s.weightKg
  {
    assert (sets + [s])[..|sets|] == sets;
  }

  lemma {:induction false} SetsVolumeNonNegative(sets: seq<GymSet>)
    requires forall k :: 0 <= k < |sets| ==> ValidSet(sets[k])
    ensures SetsVolume(sets) >= 0.0
  {
    if sets != [] {
      var s := sets[|sets| - 1];
      SetsVolumeNonNegative(sets[..|sets| - 1]);
      assert ValidSet(s);
      assert s.reps * s.weightKg >= 0.0;
    }
  }

  /** A payload the schema accepts has a volume of at least 0. */
  lemma {:induction false} ValidVolumeNonNegative(exercises: seq<GymExercise>)
    requires forall k :: 0 <= k < |exercises| ==> ValidExercise(exercises[k])
    ensures ExercisesVolume(exercises) >= 0.0
  {
    if exercises != [] {
      var e := exercises[|exercises| - 1];
      ValidVolumeNonNegative(exercises[..|exercises| - 1]);
      assert ValidExercise(e);
      SetsVolumeNonNegative(e.sets);
    }
  }

  /** Two bench sets of 5 x 100 and one of 8 x 60 come to 1480. */
  lemma VolumeExample()
    ensures CalculateVolume(GymPayload([
        GymExercise("Bench", [GymSet(5.0, 100.0, None, None, None), GymSet(5.0, 100.0, None, None, None)]),
        GymExercise("Row", [GymSet(8.0, 60.0, None, None, None)])], None, None)) == 1480.0
  {
    var s1 := GymSet(5.0, 100.0, None, None, None);
    var s2 := GymSet(8.0, 60.0, None, None, None);
    AddSetVolume([], s1);
    assert SetsVolume([s1]) == 500.0;
    AddSetVolume([s1], s1);
    assert [s1] + [s1] == [s1, s1];
    assert SetsVolume([s1, s1]) == 1000.0;
    AddSetVolume([], s2);
    assert SetsVolume([s2]) == 480.0;
    var e1 := GymExercise("Bench", [s1, s1]);
    var e2 := GymExercise("Row", [s2]);
    assert [e1, e2][..1] == [e1];
    assert [e1][..0] == [];
    assert ExercisesVolume([e1]) == 1000.0;
  }
}

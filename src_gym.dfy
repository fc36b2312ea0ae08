/**
 * The standalone gym plugin under `src/`: its payload as the entry form builds it, and
 * `calculateWorkoutVolume` (src/utils/volume.ts). The plugin's own schema module,
 * src/contracts.ts, is not part of this model; the payload shape below is the one the
 * form (src/components/GymEntryForm.tsx) produces.
 */
module SrcGym {
  import opened Wrappers
  import GymContracts
  import GymVolume

  datatype SrcSet = SrcSet(
    reps: real,
    weightKg: real,
    rpe: Option<real>,
    isDropSet: Option<bool>,
    notes: Option<string>)

  datatype SrcExercise = SrcExercise(name: string, sets: seq<SrcSet>)

  datatype SrcPayload = SrcPayload(
    payloadVersion: int,
    exercises: seq<SrcExercise>,
    durationMin: Option<real>,
    perceivedEffort: Option<real>)

  /** The inner `reduce`: one exercise's `reps * weightKg`, left to right. */
  function SetTotal(sets: seq<SrcSet>): real {
    if sets == [] then 0.0 else SetTotal(sets[..|sets| - 1]) + sets[|sets| - 1].reps * sets[|sets| - 1].weightKg
  }

  /** The outer `reduce`: every exercise's set total. */
  function ExerciseTotal(exercises: seq<SrcExercise>): real {
    if exercises == [] then 0.0
    else ExerciseTotal(exercises[..|exercises| - 1]) + SetTotal(exercises[|exercises| - 1].sets)
  }

  /** `calculateWorkoutVolume`. */
  function CalculateWorkoutVolume(payload: SrcPayload): real {
    ExerciseTotal(payload.exercises)
  }

  // ----- Agreement with the feature package's `calculateVolume` -----

  function ToGymSet(s: SrcSet): GymContracts.GymSet {
    GymContracts.GymSet(s.reps, s.weightKg, s.rpe, s.isDropSet, s.notes)
  }

  function ToGymSets(sets: seq<SrcSet>): (r: seq<GymContracts.GymSet>)
    ensures |r| == |sets| && forall k :: 0 <= k < |sets| ==> r[k] == ToGymSet(sets[k])
  {
    seq(|sets|, k requires 0 <= k < |sets| => ToGymSet(sets[k]))
  }

  function ToGymExercises(exercises: seq<SrcExercise>): (r: seq<GymContracts.GymExercise>)
    ensures |r| == |exercises|
    ensures forall k :: 0 <= k < |exercises| ==> r[k] == GymContracts.GymExercise(exercises[k].name, ToGymSets(exercises[k].sets))
  {
    seq(|exercises|, k requires 0 <= k < |exercises| => GymContracts.GymExercise(exercises[k].name, ToGymSets(exercises[k].sets)))
  }

  /** The same workout as a feature-package payload (the version number has no counterpart there). */
  function ToGymPayload(p: SrcPayload): GymContracts.GymPayload {
    GymContracts.GymPayload(ToGymExercises(p.exercises), p.durationMin, p.perceivedEffort)
  }

  lemma {:induction false} SetTotalAgrees(sets: seq<SrcSet>)
    ensures SetTotal(sets) == GymVolume.SetsVolume(ToGymSets(sets))
  {
    if sets != [] {
      var n := |sets| - 1;
      SetTotalAgrees(sets[..n]);
      assert ToGymSets(sets)[..n] == ToGymSets(sets[..n]);
    }
  }

  lemma {:induction false} ExerciseTotalAgrees(exercises: seq<SrcExercise>)
    ensures ExerciseTotal(exercises) == GymVolume.ExercisesVolume(ToGymExercises(exercises))
  {
    if exercises != [] {
      var n := |exercises| - 1;
      ExerciseTotalAgrees(exercises[..n]);
      SetTotalAgrees(exercises[n].sets);
      assert ToGymExercises(exercises)[..n] == ToGymExercises(exercises[..n]);
    }
  }

  /** Both plugins compute the same volume for the same workout. */
  lemma VolumesAgree(p: SrcPayload)
    ensures CalculateWorkoutVolume(p) == GymVolume.CalculateVolume(ToGymPayload(p))
  {
    ExerciseTotalAgrees(p.exercises);
  }

  /** Volume is additive over concatenated exercise lists. */
  lemma WorkoutVolumeAppend(a: seq<SrcExercise>, b: seq<SrcExercise>)
    ensures ExerciseTotal(a + b) == ExerciseTotal(a) + ExerciseTotal(b)
  {
    ExerciseTotalAgrees(a + b);
    ExerciseTotalAgrees(a);
    ExerciseTotalAgrees(b);
    assert ToGymExercises(a + b) == ToGymExercises(a) + ToGymExercises(b);
    GymVolume.VolumeAppend(ToGymExercises(a), ToGymExercises(b));
  }

  /** No exercises weigh nothing, and an exercise without sets adds nothing. */
  lemma EmptyVolumes(exercises: seq<SrcExercise>, name: string)
    ensures ExerciseTotal([]) == 0.0
    ensures ExerciseTotal(exercises + [SrcExercise(name, [])]) == ExerciseTotal(exercises)
  {
    assert (exercises + [SrcExercise(name, [])])[..|exercises|] == exercises;
  }
}

/** The starter exercise catalogue and the first-run seeding (packages/core/src/seed.ts). */
module Seed {
  import opened Wrappers
  import opened Db

  /** The five exercises a new store starts with. */
  const SEED_EXERCISES: seq<Exercise> := [
    Exercise("ex-squat", "Back Squat", "Legs", "Barbell", RepsWeight, None),
    Exercise("ex-bench", "Bench Press", "Chest", "Barbell", RepsWeight, None),
    Exercise("ex-deadlift", "Deadlift", "Back", "Barbell", RepsWeight, None),
    Exercise("ex-row", "Dumbbell Row", "Back", "Dumbbell", RepsWeight, None),
    Exercise("ex-plank", "Plank", "Core", "Bodyweight", Duration, None)
  ]

  /** The catalogue has five entries with distinct keys; the plank is its only timed exercise. */
  lemma SeedCatalogue()
    ensures |SEED_EXERCISES| == 5
    ensures DistinctIds(SEED_EXERCISES, ExerciseId)
    ensures forall i :: 0 <= i < |SEED_EXERCISES| ==>
      (SEED_EXERCISES[i].exerciseType == Duration <==> SEED_EXERCISES[i].id == "ex-plank")
    ensures forall i :: 0 <= i < |SEED_EXERCISES| ==>
      SEED_EXERCISES[i].exerciseType in {RepsWeight, Duration} && SEED_EXERCISES[i].notes.None?
  {
  }

  /** The exercise table after seeding: unchanged unless it was empty. */
  function SeededExercises(exercises: seq<Exercise>): (r: seq<Exercise>)
    ensures |exercises| > 0 ==> r == exercises
    ensures |exercises| == 0 ==> r == SEED_EXERCISES
  {
    if |exercises| > 0 then exercises else SEED_EXERCISES
  }

  /** Seeding twice is the same as seeding once, and afterwards the table is never empty. */
  lemma SeedIdempotent(exercises: seq<Exercise>)
    ensures SeededExercises(SeededExercises(exercises)) == SeededExercises(exercises)
    ensures |SeededExercises(exercises)| > 0
  {
  }

  /** Seeding keeps the exercise keys distinct. */
  lemma SeedKeepsDistinct(exercises: seq<Exercise>)
    requires DistinctIds(exercises, ExerciseId)
    ensures DistinctIds(SeededExercises(exercises), ExerciseId)
  {
    SeedCatalogue();
  }

  /**
   * `seedIfEmpty`: counts the exercises and adds the catalogue only when there are none.
   * Only the exercise table may change.
   */
  method SeedIfEmpty(db: AppDb)
    requires db.Valid()
    modifies db`exercises
    ensures db.exercises == SeededExercises(old(db.exercises))
    ensures db.Valid()
  {
    var count := |db.exercises|;
    if count > 0 {
      return;
    }
    SeedCatalogue();
    db.exercises := SEED_EXERCISES;
  }
}

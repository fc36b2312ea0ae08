/**
 * The gym feature's payload schema (packages/feature-gym/src/contracts.ts) as validity
 * predicates: what a set, an exercise and a whole payload must satisfy for
 * `GymPayloadSchema.safeParse` to succeed. Numbers are reals; `int()` is "has no
 * fractional part".
 */
module GymContracts {
  import opened Wrappers

  datatype GymSet = GymSet(
    reps: real,
    weightKg: real,
    rpe: Option<real>,
    isDropSet: Option<bool>,
    notes: Option<string>)

  datatype GymExercise = GymExercise(name: string, sets: seq<GymSet>)

  datatype GymPayload = GymPayload(
    exercises: seq<GymExercise>,
    durationMin: Option<real>,
    perceivedEffort: Option<real>)

  /** The version number the feature stamps on its payloads. */
  const GYM_PAYLOAD_VERSION: int := 1

  /** `z.number().int()`: a whole number. */
  predicate IsInt(x: real) {
    x.Floor as real == x
  }

  /** `GymSetSchema`: whole reps of at least 0, a weight of at least 0, an RPE in [0, 10] when given. */
  predicate ValidSet(s: GymSet) {
    && IsInt(s.reps) && s.reps >= 0.0
    && s.weightKg >= 0.0
    && (s.rpe.Some? ==> 0.0 <= s.rpe.value <= 10.0)
  }

  /** `GymExerciseSchema`: a name of at least one character, and valid sets (possibly none). */
  predicate ValidExercise(e: GymExercise) {
    |e.name| >= 1 && forall k :: 0 <= k < |e.sets| ==> ValidSet(e.sets[k])
  }

  /** `GymPayloadSchema`: valid exercises (possibly none), whole minutes of at least 0, an effort of 1 to 10. */
  predicate ValidPayload(p: GymPayload) {
    && (forall k :: 0 <= k < |p.exercises| ==> ValidExercise(p.exercises[k]))
    && (p.durationMin.Some? ==> IsInt(p.durationMin.value) && p.durationMin.value >= 0.0)
    && (p.perceivedEffort.Some? ==> IsInt(p.perceivedEffort.value) && 1.0 <= p.perceivedEffort.value <= 10.0)
  }

  /** `safeParse`: the payload itself on success, the failure otherwise (there are no transforms). */
  function SafeParse(p: GymPayload): (r: Result<GymPayload, ()>)
    ensures r.Success? <==> ValidPayload(p)
    ensures r.Success? ==> r.value == p
  {
    if ValidPayload(p) then Success(p) else Failure(())
  }

  /** Validity of the exercise list splits over concatenation. */
  lemma ValidConcat(a: seq<GymExercise>, b: seq<GymExercise>, durationMin: Option<real>, perceivedEffort: Option<real>)
    ensures ValidPayload(GymPayload(a + b, durationMin, perceivedEffort))
      <==> ValidPayload(GymPayload(a, durationMin, perceivedEffort)) && ValidPayload(GymPayload(b, durationMin, perceivedEffort))
  {
    if ValidPayload(GymPayload(a, durationMin, perceivedEffort)) && ValidPayload(GymPayload(b, durationMin, perceivedEffort)) {
      forall k | 0 <= k < |a + b| ensures ValidExercise((a + b)[k]) {
        if k >= |a| {
          assert (a + b)[k] == b[k - |a|];
        }
      }
    }
    if ValidPayload(GymPayload(a + b, durationMin, perceivedEffort)) {
      forall k | 0 <= k < |a| ensures ValidExercise(a[k]) {
        assert (a + b)[k] == a[k];
      }
      forall k | 0 <= k < |b| ensures ValidExercise(b[k]) {
        assert (a + b)[|a| + k] == b[k];
      }
    }
  }

  /** The schema's boundaries, value by value. */
  lemma SchemaExamples()
    ensures ValidSet(GymSet(5.0, 100.0, None, None, None))
    ensures ValidSet(GymSet(0.0, 0.0, Some(10.0), Some(true), Some("")))
    ensures !ValidSet(GymSet(2.5, 100.0, None, None, None))
    ensures !ValidSet(GymSet(5.0, -1.0, None, None, None))
    ensures !ValidSet(GymSet(5.0, 100.0, Some(10.5), None, None))
    ensures !ValidExercise(GymExercise("", []))
    ensures ValidExercise(GymExercise("Squat", []))
    ensures ValidPayload(GymPayload([], None, None))
    ensures !ValidPayload(GymPayload([], None, Some(0.0)))
    ensures !ValidPayload(GymPayload([], Some(-1.0), None))
  {
    assert (2.5).Floor == 2;
  }
}

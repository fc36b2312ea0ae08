/**
 * The standalone plugin's entry form (src/components/GymEntryForm.tsx). Unlike the
 * feature package's form it holds numbers rather than text, keeps every exercise and
 * set on submit, and only trims names and notes. The schema check (src/contracts.ts,
 * not part of this model) is the parameter `valid`.
 */
module SrcGymEntryForm {
  import opened Wrappers
  import Text
  import opened SrcGym

  /** `emptySet`: no reps, no weight, no RPE, not a drop set, empty notes. */
  function EmptySet(): SrcSet {
    SrcSet(0.0, 0.0, None, Some(false), Some(""))
  }

  /** `emptyExercise`: no name and one empty set. */
  function EmptyExercise(): SrcExercise {
    SrcExercise("", [EmptySet()])
  }

  /** The initial exercises: those of the value being edited when it has any, otherwise one empty exercise. */
  function InitialExercises(initialValue: Option<SrcPayload>): (r: seq<SrcExercise>)
    ensures |r| >= 1
    ensures initialValue.Some? && |initialValue.value.exercises| > 0 ==> r == initialValue.value.exercises
    ensures initialValue.None? || |initialValue.value.exercises| == 0 ==> r == [EmptyExercise()]
  {
    if initialValue.Some? && |initialValue.value.exercises| > 0 then initialValue.value.exercises else [EmptyExercise()]
  }

  /** What one field of a set's inputs writes. */
  datatype SetEdit =
    | EditReps(reps: real)
    | EditWeight(weightKg: real)
    | EditRpe(rpe: Option<real>)
    | EditDropSet(checked: bool)
    | EditNotes(notes: string)

  function ApplyEdit(s: SrcSet, edit: SetEdit): SrcSet {
    match edit
    case EditReps(v) => s.(reps := v)
    case EditWeight(v) => s.(weightKg := v)
    case EditRpe(v) => s.(rpe := v)
    case EditDropSet(v) => s.(isDropSet := Some(v))
    case EditNotes(v) => s.(notes := Some(v))
  }

  /** The updater a set input passes to `updateExercise`: set `setIndex` edited in a copy of the sets. */
  function EditSetOf(e: SrcExercise, setIndex: int, edit: SetEdit): (r: SrcExercise)
    ensures r.name == e.name && |r.sets| == |e.sets|
    ensures forall j :: 0 <= j < |e.sets| && j != setIndex ==> r.sets[j] == e.sets[j]
    ensures 0 <= setIndex < |e.sets| ==> r.sets[setIndex] == ApplyEdit(e.sets[setIndex], edit)
  {
    if 0 <= setIndex < |e.sets| then e.(sets := e.sets[setIndex := ApplyEdit(e.sets[setIndex], edit)]) else e
  }

  /** The updater `handleAddSet` passes to `updateExercise`. */
  function WithEmptySet(e: SrcExercise): SrcExercise {
    e.(sets := e.sets + [EmptySet()])
  }

  // ----- Submit -----

  /** `set.notes?.trim() || undefined`. */
  function SubmitNotes(notes: Option<string>): (r: Option<string>)
    ensures r.None? <==> notes.None? || Text.IsBlank(notes.value)
    ensures r.Some? ==> r.value == Text.Trim(notes.value)
  {
    if notes.None? then None else Text.TrimmedOrAbsent(notes.value)
  }

  function SubmitSet(s: SrcSet): SrcSet {
    s.(notes := SubmitNotes(s.notes))
  }

  /** Every set, in order, with trimmed notes. */
  function SubmitSets(sets: seq<SrcSet>): (r: seq<SrcSet>)
    ensures |r| == |sets|
    ensures forall k :: 0 <= k < |sets| ==> r[k] == sets[k].(notes := SubmitNotes(sets[k].notes))
  {
    seq(|sets|, k requires 0 <= k < |sets| => SubmitSet(sets[k]))
  }

  /** One submitted exercise: the trimmed name and every set, in order, with trimmed notes. */
  function SubmitExercise(e: SrcExercise): (r: SrcExercise)
    ensures r.name == Text.Trim(e.name) && r.sets == SubmitSets(e.sets)
  {
    SrcExercise(Text.Trim(e.name), SubmitSets(e.sets))
  }

  /** The payload `handleSubmit` builds: every exercise, in order, with the version and the two optional numbers as held. */
  function BuildPayload(payloadVersion: int, exercises: seq<SrcExercise>, durationMin: Option<real>, perceivedEffort: Option<real>): (p: SrcPayload)
    ensures p.payloadVersion == payloadVersion && p.durationMin == durationMin && p.perceivedEffort == perceivedEffort
    ensures |p.exercises| == |exercises|
    ensures forall i :: 0 <= i < |exercises| ==> p.exercises[i] == SubmitExercise(exercises[i])
  {
    SrcPayload(payloadVersion, seq(|exercises|, i requires 0 <= i < |exercises| => SubmitExercise(exercises[i])), durationMin, perceivedEffort)
  }

  lemma SubmitNotesIdempotent(notes: Option<string>)
    ensures SubmitNotes(SubmitNotes(notes)) == SubmitNotes(notes)
  {
    if notes.Some? {
      Text.TrimIdempotent(notes.value);
    }
  }

  lemma SubmitSetsIdempotent(sets: seq<SrcSet>)
    ensures SubmitSets(SubmitSets(sets)) == SubmitSets(sets)
  {
    var once := SubmitSets(sets);
    var twice := SubmitSets(once);
    forall k | 0 <= k < |sets| ensures twice[k] == once[k] {
      SubmitNotesIdempotent(sets[k].notes);
    }
  }

  lemma SubmitExerciseIdempotent(e: SrcExercise)
    ensures SubmitExercise(SubmitExercise(e)) == SubmitExercise(e)
  {
    Text.TrimIdempotent(e.name);
    SubmitSetsIdempotent(e.sets);
  }

  /** Submitting what was submitted changes nothing: names and notes are already trimmed. */
  lemma SubmitIdempotent(payloadVersion: int, exercises: seq<SrcExercise>, durationMin: Option<real>, perceivedEffort: Option<real>)
    ensures var p := BuildPayload(payloadVersion, exercises, durationMin, perceivedEffort);
      BuildPayload(payloadVersion, p.exercises, durationMin, perceivedEffort) == p
  {
    forall i | 0 <= i < |exercises| {
      SubmitExerciseIdempotent(exercises[i]);
    }
  }

  lemma {:induction false} SubmitKeepsSetTotal(sets: seq<SrcSet>)
    ensures SetTotal(SubmitSets(sets)) == SetTotal(sets)
  {
    if sets != [] {
      var n := |sets| - 1;
      SubmitKeepsSetTotal(sets[..n]);
      assert SubmitSets(sets)[..n] == SubmitSets(sets[..n]);
    }
  }

  /** Trimming names and notes does not change the workout's volume. */
  lemma {:induction false} SubmitKeepsVolume(payloadVersion: int, exercises: seq<SrcExercise>, durationMin: Option<real>, perceivedEffort: Option<real>)
    ensures CalculateWorkoutVolume(BuildPayload(payloadVersion, exercises, durationMin, perceivedEffort)) == ExerciseTotal(exercises)
  {
    if exercises != [] {
      var n := |exercises| - 1;
      SubmitKeepsVolume(payloadVersion, exercises[..n], durationMin, perceivedEffort);
      SubmitKeepsSetTotal(exercises[n].sets);
      assert BuildPayload(payloadVersion, exercises, durationMin, perceivedEffort).exercises[..n]
        == BuildPayload(payloadVersion, exercises[..n], durationMin, perceivedEffort).exercises;
    }
  }

  /** An added exercise or an added set weighs nothing. */
  lemma EmptyEntriesWeighNothing(exercises: seq<SrcExercise>, e: SrcExercise)
    ensures ExerciseTotal(exercises + [EmptyExercise()]) == ExerciseTotal(exercises)
    ensures SetTotal(WithEmptySet(e).sets) == SetTotal(e.sets)
  {
    assert (exercises + [EmptyExercise()])[..|exercises|] == exercises;
    assert [EmptySet()][..0] == [];
    assert (e.sets + [EmptySet()])[..|e.sets|] == e.sets;
  }

  const SUBMIT_ERROR: string := "Bitte überprüfe die Eingaben."

  /**
   * The form's state. `submitted` records, in order, every payload handed to `onSubmit`.
   */
  class SrcGymEntryFormState {
    var exercises: seq<SrcExercise>
    var durationMin: Option<real>
    var perceivedEffort: Option<real>
    var error: Option<string>
    var submitted: seq<SrcPayload>

    /** The state for a new entry (`None`) or for editing an existing one. */
    constructor (initialValue: Option<SrcPayload>)
      ensures exercises == InitialExercises(initialValue)
      ensures durationMin == (if initialValue.Some? then initialValue.value.durationMin else None)
      ensures perceivedEffort == (if initialValue.Some? then initialValue.value.perceivedEffort else None)
      ensures error == None && submitted == []
    {
      exercises := InitialExercises(initialValue);
      durationMin := if initialValue.Some? then initialValue.value.durationMin else None;
      perceivedEffort := if initialValue.Some? then initialValue.value.perceivedEffort else None;
      error := None;
      submitted := [];
    }

    /** `updateExercise(index, updater)`: exercise `index` replaced by `updater` of it, the others untouched. */
    method UpdateExercise(index: int, updater: SrcExercise -> SrcExercise)
      requires 0 <= index < |exercises|
      modifies this`exercises
      ensures |exercises| == |old(exercises)| && exercises[index] == updater(old(exercises)[index])
      ensures forall i :: 0 <= i < |exercises| && i != index ==> exercises[i] == old(exercises)[i]
    {
      var next := exercises;
      next := next[index := updater(next[index])];
      exercises := next;
    }

    /** `handleAddExercise`: one more empty exercise at the end. */
    method AddExercise()
      modifies this`exercises
      ensures exercises == old(exercises) + [EmptyExercise()]
    {
      exercises := exercises + [EmptyExercise()];
    }

    /** `handleAddSet(e)`: one more empty set at the end of exercise `e` only. */
    method AddSet(exerciseIndex: int)
      requires 0 <= exerciseIndex < |exercises|
      modifies this`exercises
      ensures |exercises| == |old(exercises)|
      ensures exercises[exerciseIndex].name == old(exercises)[exerciseIndex].name
      ensures exercises[exerciseIndex].sets == old(exercises)[exerciseIndex].sets + [EmptySet()]
      ensures forall i :: 0 <= i < |exercises| && i != exerciseIndex ==> exercises[i] == old(exercises)[i]
    {
      UpdateExercise(exerciseIndex, WithEmptySet);
    }

    /** The name input's change: exercise `index` renamed, its sets kept. */
    method RenameExercise(index: int, name: string)
      requires 0 <= index < |exercises|
      modifies this`exercises
      ensures exercises == old(exercises)[index := old(exercises)[index].(name := name)]
    {
      UpdateExercise(index, (e: SrcExercise) => e.(name := name));
    }

    /** The duration input's change (`""` becomes `None`). */
    method SetDuration(value: Option<real>)
      modifies this`durationMin
      ensures durationMin == value
    {
      durationMin := value;
    }

    /** The effort input's change (`""` becomes `None`). */
    method SetEffort(value: Option<real>)
      modifies this`perceivedEffort
      ensures perceivedEffort == value
    {
      perceivedEffort := value;
    }

    /** A set input's change: one field of set `s` of exercise `e`. */
    method EditSet(exerciseIndex: int, setIndex: int, edit: SetEdit)
      requires 0 <= exerciseIndex < |exercises| && 0 <= setIndex < |exercises[exerciseIndex].sets|
      modifies this`exercises
      ensures |exercises| == |old(exercises)|
      ensures forall i :: 0 <= i < |exercises| && i != exerciseIndex ==> exercises[i] == old(exercises)[i]
      ensures var before := old(exercises)[exerciseIndex];
        && exercises[exerciseIndex].name == before.name
        && exercises[exerciseIndex].sets == before.sets[setIndex := ApplyEdit(before.sets[setIndex], edit)]
    {
      UpdateExercise(exerciseIndex, e => EditSetOf(e, setIndex, edit));
    }

    /**
     * `handleSubmit`: clears the error, builds the payload; when the schema rejects it
     * the error is set and nothing is submitted, otherwise the payload is submitted.
     */
    method HandleSubmit(payloadVersion: int, valid: SrcPayload -> bool)
      modifies this`error, this`submitted
      ensures var p := BuildPayload(payloadVersion, exercises, durationMin, perceivedEffort);
        if valid(p) then error == None && submitted == old(submitted) + [p]
        else error == Some(SUBMIT_ERROR) && submitted == old(submitted)
    {
      error := None;
      var payload := BuildPayload(payloadVersion, exercises, durationMin, perceivedEffort);
      if !valid(payload) {
        error := Some(SUBMIT_ERROR);
        return;
      }
      submitted := submitted + [payload];
    }
  }
}

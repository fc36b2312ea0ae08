/**
 * The gym feature's entry form (packages/feature-gym/src/components/GymEntryForm.tsx):
 * drafts held as text, the editing operations on them, and the submit step that turns
 * the drafts into a payload, validates it against the schema and hands it on.
 * `Number(text)` of a non-empty field is the parameter `num`.
 */
module GymEntryForm {
  import opened Wrappers
  import Text
  import opened GymContracts

  datatype SetDraft = SetDraft(reps: string, weightKg: string, rpe: string, isDropSet: bool, notes: string)

  datatype ExerciseDraft = ExerciseDraft(name: string, sets: seq<SetDraft>)

  /** `createSetDraft`: every field empty, not a drop set. */
  function CreateSetDraft(): SetDraft {
    SetDraft("", "", "", false, "")
  }

  /** `createExerciseDraft`: no name and a single empty set. */
  function CreateExerciseDraft(): ExerciseDraft {
    ExerciseDraft("", [CreateSetDraft()])
  }

  /** A `Partial<ExerciseDraft>`: the fields given replace the draft's. */
  datatype ExerciseUpdate = ExerciseUpdate(name: Option<string>, sets: Option<seq<SetDraft>>)

  /** A `Partial<SetDraft>`. */
  datatype SetUpdate = SetUpdate(
    reps: Option<string>,
    weightKg: Option<string>,
    rpe: Option<string>,
    isDropSet: Option<bool>,
    notes: Option<string>)

  /** `{ ...exercise, ...updates }`. */
  function MergeExercise(e: ExerciseDraft, u: ExerciseUpdate): ExerciseDraft {
    ExerciseDraft(u.name.GetOr(e.name), u.sets.GetOr(e.sets))
  }

  /** `{ ...set, ...updates }`. */
  function MergeSet(s: SetDraft, u: SetUpdate): SetDraft {
    SetDraft(u.reps.GetOr(s.reps), u.weightKg.GetOr(s.weightKg), u.rpe.GetOr(s.rpe),
      u.isDropSet.GetOr(s.isDropSet), u.notes.GetOr(s.notes))
  }

  /** `canSubmit`: some exercise has a name that is not blank. */
  predicate CanSubmit(exercises: seq<ExerciseDraft>) {
    exists i :: 0 <= i < |exercises| && !Text.IsBlank(exercises[i].name)
  }

  // ----- Submit -----

  /** A set is submitted when it has reps, a weight or non-blank notes; an RPE alone does not count. */
  predicate KeepSet(s: SetDraft) {
    s.reps != "" || s.weightKg != "" || Text.Trim(s.notes) != ""
  }

  /** The sets that are submitted, in order. */
  function KeptSets(sets: seq<SetDraft>): (r: seq<SetDraft>)
    ensures |r| <= |sets|
    ensures forall s :: s in r <==> s in sets && KeepSet(s)
  {
    if sets == [] then []
    else KeptSets(sets[..|sets| - 1]) + (if KeepSet(sets[|sets| - 1]) then [sets[|sets| - 1]] else [])
  }

  /**
   * One submitted set: an empty reps or weight field counts as 0, an empty RPE is
   * absent, a set that is not a drop set says nothing about it, and blank notes are absent.
   */
  function SubmitSet(s: SetDraft, num: string -> real): (r: GymSet)
    ensures r.reps == if s.reps == "" then 0.0 else num(s.reps)
    ensures r.weightKg == if s.weightKg == "" then 0.0 else num(s.weightKg)
    ensures r.rpe.None? <==> s.rpe == ""
    ensures r.isDropSet.None? <==> !s.isDropSet
    ensures r.isDropSet != Some(false)
    ensures r.notes == Text.TrimmedOrAbsent(s.notes)
  {
    GymSet(
      if s.reps == "" then 0.0 else num(s.reps),
      if s.weightKg == "" then 0.0 else num(s.weightKg),
      if s.rpe == "" then None else Some(num(s.rpe)),
      if s.isDropSet then Some(true) else None,
      if Text.Trim(s.notes) != "" then Some(Text.Trim(s.notes)) else None)
  }

  /** One submitted exercise: the trimmed name and the kept sets, converted. */
  function SubmitExercise(e: ExerciseDraft, num: string -> real): (r: GymExercise)
    ensures r.name == Text.Trim(e.name)
    ensures |r.sets| == |KeptSets(e.sets)|
    ensures forall k :: 0 <= k < |r.sets| ==> r.sets[k] == SubmitSet(KeptSets(e.sets)[k], num)
  {
    var kept := KeptSets(e.sets);
    GymExercise(Text.Trim(e.name), seq(|kept|, k requires 0 <= k < |kept| => SubmitSet(kept[k], num)))
  }

  /** The exercises whose (trimmed) name is not empty, in order. */
  function Named(xs: seq<GymExercise>): (r: seq<GymExercise>)
    ensures |r| <= |xs|
    ensures forall x :: x in r <==> x in xs && |x.name| > 0
  {
    if xs == [] then []
    else Named(xs[..|xs| - 1]) + (if |xs[|xs| - 1].name| > 0 then [xs[|xs| - 1]] else [])
  }

  function SubmitExercises(exercises: seq<ExerciseDraft>, num: string -> real): (r: seq<GymExercise>)
    ensures |r| == |exercises|
    ensures forall i :: 0 <= i < |r| ==> r[i] == SubmitExercise(exercises[i], num)
  {
    seq(|exercises|, i requires 0 <= i < |exercises| => SubmitExercise(exercises[i], num))
  }

  /** An empty field is absent; anything else is `Number(text)`. */
  function OptionalNumber(text: string, num: string -> real): (r: Option<real>)
    ensures r.None? <==> text == ""
  {
    if text == "" then None else Some(num(text))
  }

  /** The payload `handleSubmit` builds from the drafts and the two text fields. */
  function BuildPayload(exercises: seq<ExerciseDraft>, durationMin: string, perceivedEffort: string, num: string -> real): GymPayload {
    GymPayload(
      Named(SubmitExercises(exercises, num)),
      OptionalNumber(durationMin, num),
      OptionalNumber(perceivedEffort, num))
  }

  /** Some exercise survives the name filter exactly when some exercise has a name. */
  lemma {:induction false} NamedNonEmpty(xs: seq<GymExercise>)
    ensures |Named(xs)| > 0 <==> exists i :: 0 <= i < |xs| && |xs[i].name| > 0
  {
    if |Named(xs)| > 0 {
      assert Named(xs)[0] in Named(xs);
      var i :| 0 <= i < |xs| && xs[i] == Named(xs)[0];
    }
    if exists i :: 0 <= i < |xs| && |xs[i].name| > 0 {
      var i :| 0 <= i < |xs| && |xs[i].name| > 0;
      assert xs[i] in xs;
    }
  }

  /** The payload has an exercise exactly when `canSubmit` held. */
  lemma PayloadNonEmptyIffCanSubmit(exercises: seq<ExerciseDraft>, durationMin: string, perceivedEffort: string, num: string -> real)
    ensures |BuildPayload(exercises, durationMin, perceivedEffort, num).exercises| > 0 <==> CanSubmit(exercises)
  {
    var submitted := SubmitExercises(exercises, num);
    NamedNonEmpty(submitted);
    assert forall i :: 0 <= i < |exercises| ==> (|submitted[i].name| > 0 <==> !Text.IsBlank(exercises[i].name));
  }

  /** Every submitted exercise comes from a draft, under its trimmed, non-empty name. */
  lemma PayloadExercisesNamed(exercises: seq<ExerciseDraft>, durationMin: string, perceivedEffort: string, num: string -> real)
    ensures forall x :: x in BuildPayload(exercises, durationMin, perceivedEffort, num).exercises ==>
      |x.name| > 0 && Text.Trim(x.name) == x.name
      && exists i :: 0 <= i < |exercises| && x == SubmitExercise(exercises[i], num)
  {
    forall x | x in BuildPayload(exercises, durationMin, perceivedEffort, num).exercises
      ensures |x.name| > 0 && Text.Trim(x.name) == x.name
      ensures exists i :: 0 <= i < |exercises| && x == SubmitExercise(exercises[i], num)
    {
      var submitted := SubmitExercises(exercises, num);
      var i :| 0 <= i < |submitted| && submitted[i] == x;
      Text.TrimIdempotent(exercises[i].name);
    }
  }

  /** A set with only an RPE (and blank notes) is dropped; so is the empty draft set. */
  lemma RpeOnlySetDropped(rpe: string, isDropSet: bool, notes: string, num: string -> real)
    requires Text.IsBlank(notes)
    ensures SubmitExercise(ExerciseDraft("Bench", [SetDraft("", "", rpe, isDropSet, notes)]), num).sets == []
    ensures SubmitExercise(CreateExerciseDraft(), num) == GymExercise("", [])
  {
    RpeOnlyBenchSetDropped(rpe, isDropSet, notes, num);
    BlankDraftSubmitsEmpty(num);
  }

  lemma RpeOnlyBenchSetDropped(rpe: string, isDropSet: bool, notes: string, num: string -> real)
    requires Text.IsBlank(notes)
    ensures SubmitExercise(ExerciseDraft("Bench", [SetDraft("", "", rpe, isDropSet, notes)]), num).sets == []
  {
    var d := SetDraft("", "", rpe, isDropSet, notes);
    assert [d][..0] == [];
    assert KeptSets([d]) == [];
  }

  lemma BlankDraftSubmitsEmpty(num: string -> real)
    ensures SubmitExercise(CreateExerciseDraft(), num) == GymExercise("", [])
  {
    assert [CreateSetDraft()][..0] == [];
    assert Text.Trim("") == "";
  }

  /** A filled-in draft with empty optional fields gives the defaults. */
  lemma SubmitSetDefaults(num: string -> real)
    ensures SubmitSet(SetDraft("5", "", "", false, " "), num) == GymSet(num("5"), 0.0, None, None, None)
  {
    assert Text.IsBlank(" ") by {
      assert Text.TrimStart(" ") == Text.TrimStart("");
    }
  }

  lemma KeptSetsSnocBlank(sets: seq<SetDraft>)
    ensures KeptSets(sets + [CreateSetDraft()]) == KeptSets(sets)
  {
    assert (sets + [CreateSetDraft()])[..|sets|] == sets;
    assert Text.Trim("") == "";
  }

  lemma NamedSnocUnnamed(xs: seq<GymExercise>, x: GymExercise)
    requires x.name == ""
    ensures Named(xs + [x]) == Named(xs)
  {
    assert (xs + [x])[..|xs|] == xs;
  }

  lemma SubmitExercisesSnoc(exercises: seq<ExerciseDraft>, e: ExerciseDraft, num: string -> real)
    ensures SubmitExercises(exercises + [e], num) == SubmitExercises(exercises, num) + [SubmitExercise(e, num)]
  {
    var a := SubmitExercises(exercises + [e], num);
    var b := SubmitExercises(exercises, num) + [SubmitExercise(e, num)];
    assert |a| == |b|;
    forall i | 0 <= i < |a| ensures a[i] == b[i] {
      SubmitExercisesSnocAt(exercises, e, num, i);
    }
  }

  /** One position of `SubmitExercisesSnoc`. */
  lemma SubmitExercisesSnocAt(exercises: seq<ExerciseDraft>, e: ExerciseDraft, num: string -> real, i: nat)
    requires i <= |exercises|
    ensures SubmitExercises(exercises + [e], num)[i] == (SubmitExercises(exercises, num) + [SubmitExercise(e, num)])[i]
  {
    if i < |exercises| {
      assert (exercises + [e])[i] == exercises[i];
    }
  }

  /** Adding an exercise draft does not change what would be submitted. */
  lemma AddExerciseSubmitsSame(exercises: seq<ExerciseDraft>, durationMin: string, perceivedEffort: string, num: string -> real)
    ensures BuildPayload(exercises + [CreateExerciseDraft()], durationMin, perceivedEffort, num)
         == BuildPayload(exercises, durationMin, perceivedEffort, num)
  {
    var blank := SubmitExercise(CreateExerciseDraft(), num);
    RpeOnlySetDropped("", false, "", num);
    SubmitExercisesSnoc(exercises, CreateExerciseDraft(), num);
    NamedSnocUnnamed(SubmitExercises(exercises, num), blank);
  }

  /** Adding an empty set to a draft does not change what would be submitted. */
  lemma AddSetSubmitsSame(e: ExerciseDraft, num: string -> real)
    ensures SubmitExercise(e.(sets := e.sets + [CreateSetDraft()]), num) == SubmitExercise(e, num)
  {
    KeptSetsSnocBlank(e.sets);
  }

  /** The inner `map` of `updateSet`: set `setIndex` merged with the updates, the others as they were. */
  function UpdateSetOf(e: ExerciseDraft, setIndex: int, u: SetUpdate): (r: ExerciseDraft)
    ensures r.name == e.name && |r.sets| == |e.sets|
    ensures forall j :: 0 <= j < |r.sets| && j != setIndex ==> r.sets[j] == e.sets[j]
    ensures 0 <= setIndex < |r.sets| ==> r.sets[setIndex] == MergeSet(e.sets[setIndex], u)
  {
    e.(sets := seq(|e.sets|, j requires 0 <= j < |e.sets| => if j == setIndex then MergeSet(e.sets[j], u) else e.sets[j]))
  }

  const SUBMIT_ERROR: string := "Bitte prüfe die Eingaben, mindestens eine Übung und gültige Sätze sind erforderlich."

  /**
   * The form's state. `submitted` records, in order, every payload handed to `onSubmit`.
   */
  class GymEntryFormState {
    var exercises: seq<ExerciseDraft>
    var durationMin: string
    var perceivedEffort: string
    var error: Option<string>
    var submitted: seq<GymPayload>

    /** One empty exercise draft, empty fields, no error. */
    constructor ()
      ensures exercises == [CreateExerciseDraft()] && durationMin == "" && perceivedEffort == ""
      ensures error == None && submitted == []
    {
      exercises := [CreateExerciseDraft()];
      durationMin, perceivedEffort := "", "";
      error := None;
      submitted := [];
    }

    /** `updateExercise(index, updates)`: merges the updates into exercise `index` only; an index out of range changes nothing. */
    method UpdateExercise(index: int, u: ExerciseUpdate)
      modifies this`exercises
      ensures |exercises| == |old(exercises)|
      ensures forall i :: 0 <= i < |exercises| && i != index ==> exercises[i] == old(exercises)[i]
      ensures 0 <= index < |exercises| ==> exercises[index] == MergeExercise(old(exercises)[index], u)
    {
      var current := exercises;
      exercises := seq(|current|, i requires 0 <= i < |current| =>
        if i == index then MergeExercise(current[i], u) else current[i]);
    }

    /** `updateSet(e, s, updates)`: merges the updates into set `s` of exercise `e` only. */
    method UpdateSet(exerciseIndex: int, setIndex: int, u: SetUpdate)
      modifies this`exercises
      ensures |exercises| == |old(exercises)|
      ensures forall i :: 0 <= i < |exercises| && i != exerciseIndex ==> exercises[i] == old(exercises)[i]
      ensures 0 <= exerciseIndex < |exercises| ==>
        var before := old(exercises)[exerciseIndex];
        var after := exercises[exerciseIndex];
        && after.name == before.name && |after.sets| == |before.sets|
        && (forall j :: 0 <= j < |after.sets| && j != setIndex ==> after.sets[j] == before.sets[j])
        && (0 <= setIndex < |after.sets| ==> after.sets[setIndex] == MergeSet(before.sets[setIndex], u))
    {
      var current := exercises;
      exercises := seq(|current|, i requires 0 <= i < |current| =>
        if i != exerciseIndex then current[i] else UpdateSetOf(current[i], setIndex, u));
    }

    /** The duration field's change: the text as typed. */
    method SetDurationText(value: string)
      modifies this`durationMin
      ensures durationMin == value
    {
      durationMin := value;
    }

    /** The effort field's change: the text as typed. */
    method SetEffortText(value: string)
      modifies this`perceivedEffort
      ensures perceivedEffort == value
    {
      perceivedEffort := value;
    }

    /** `addExercise`: one more empty exercise draft at the end. */
    method AddExercise()
      modifies this`exercises
      ensures exercises == old(exercises) + [CreateExerciseDraft()]
    {
      exercises := exercises + [CreateExerciseDraft()];
    }

    /** `addSet(e)`: one more empty set at the end of exercise `e` only. */
    method AddSet(exerciseIndex: int)
      modifies this`exercises
      ensures |exercises| == |old(exercises)|
      ensures forall i :: 0 <= i < |exercises| && i != exerciseIndex ==> exercises[i] == old(exercises)[i]
      ensures 0 <= exerciseIndex < |exercises| ==>
        exercises[exerciseIndex] == old(exercises)[exerciseIndex].(sets := old(exercises)[exerciseIndex].sets + [CreateSetDraft()])
    {
      var current := exercises;
      exercises := seq(|current|, i requires 0 <= i < |current| =>
        if i == exerciseIndex then current[i].(sets := current[i].sets + [CreateSetDraft()]) else current[i]);
    }

    /**
     * `handleSubmit`: builds the payload; when the schema rejects it the error is set
     * and nothing is submitted, otherwise the error is cleared and the payload submitted.
     */
    method HandleSubmit(num: string -> real)
      modifies this`error, this`submitted
      ensures var p := BuildPayload(exercises, durationMin, perceivedEffort, num);
        if ValidPayload(p) then error == None && submitted == old(submitted) + [p]
        else error == Some(SUBMIT_ERROR) && submitted == old(submitted)
      ensures CanSubmit(exercises) && submitted != old(submitted) ==> |submitted[|submitted| - 1].exercises| > 0
    {
      var payload := BuildPayload(exercises, durationMin, perceivedEffort, num);
      PayloadNonEmptyIffCanSubmit(exercises, durationMin, perceivedEffort, num);
      Deliver(payload);
    }

    /** The second half of `handleSubmit`: `safeParse`, then the error or `onSubmit`. */
    method Deliver(payload: GymPayload)
      modifies this`error, this`submitted
      ensures if ValidPayload(payload) then error == None && submitted == old(submitted) + [payload]
        else error == Some(SUBMIT_ERROR) && submitted == old(submitted)
    {
      var result := SafeParse(payload);
      if result.Failure? {
        error := Some(SUBMIT_ERROR);
        return;
      }
      error := None;
      submitted := submitted + [result.value];
    }
  }
}

/**
 * The gym feature's store flows and derived views (packages/feature-gym/src/feature.tsx).
 * Components re-read their tables after every write, so a component's snapshot of a
 * table is the table itself; fresh `crypto.randomUUID()` keys and the clock are parameters.
 */
module GymFeature {
  import opened Wrappers
  import opened Db
  import RestTimer
  import Calc
  import Sorting
  import Text

  /** The sequence holds no key twice. */
  ghost predicate DistinctKeys(ids: seq<string>) {
    forall i, j :: 0 <= i < j < |ids| ==> ids[i] != ids[j]
  }

  /** None of `ids` is already a key of `t`. */
  ghost predicate AllFresh<T>(ids: seq<string>, t: seq<T>, id: T -> string) {
    forall k :: 0 <= k < |ids| ==> ids[k] !in Ids(t, id)
  }

  /** The path of a workout's detail page. */
  function WorkoutPath(id: string): (p: string)
    ensures |p| == 13 + |id| && p[..13] == "/gym/workout/" && p[13..] == id
  {
    "/gym/workout/" + id
  }

  // ---------------------------------------------------------------- table filters

  /** `where("workoutId").equals(w)`: the workout's entries, in table order. */
  function EntriesOf(t: seq<WorkoutEntry>, w: string): (r: seq<WorkoutEntry>)
    ensures forall x :: x in r <==> x in t && x.workoutId == w
    ensures |r| <= |t|
  {
    if t == [] then []
    else EntriesOf(t[..|t| - 1], w) + (if t[|t| - 1].workoutId == w then [t[|t| - 1]] else [])
  }

  /** `sets.filter(set => set.entryId === e)`: the entry's sets, in table order. */
  function SetsOf(t: seq<WorkoutSet>, e: string): (r: seq<WorkoutSet>)
    ensures |r| <= |t|
  {
    if t == [] then []
    else SetsOf(t[..|t| - 1], e) + (if t[|t| - 1].entryId == e then [t[|t| - 1]] else [])
  }

  /** The filter keeps exactly the sets of entry `e`. */
  lemma {:induction false} SetsOfMembers(t: seq<WorkoutSet>, e: string)
    ensures forall x :: x in SetsOf(t, e) <==> x in t && x.entryId == e
    decreases |t|
  {
    if t != [] {
      var t', y := t[..|t| - 1], t[|t| - 1];
      SetsOfMembers(t', e);
      assert t == t' + [y];
    }
  }

  lemma SetsOfSnoc(t: seq<WorkoutSet>, x: WorkoutSet, e: string)
    ensures SetsOf(t + [x], e) == SetsOf(t, e) + (if x.entryId == e then [x] else [])
  {
    assert (t + [x])[..|t|] == t;
  }

  lemma EntriesOfSnoc(t: seq<WorkoutEntry>, x: WorkoutEntry, w: string)
    ensures EntriesOf(t + [x], w) == EntriesOf(t, w) + (if x.workoutId == w then [x] else [])
  {
    assert (t + [x])[..|t|] == t;
  }

  lemma {:induction false} SetsOfAppend(a: seq<WorkoutSet>, b: seq<WorkoutSet>, e: string)
    ensures SetsOf(a + b, e) == SetsOf(a, e) + SetsOf(b, e)
    decreases |b|
  {
    if b == [] {
      assert a + b == a;
    } else {
      var b', x := b[..|b| - 1], b[|b| - 1];
      assert b == b' + [x];
      assert a + b == (a + b') + [x];
      SetsOfAppend(a, b', e);
      SetsOfSnoc(a + b', x, e);
      SetsOfSnoc(b', x, e);
    }
  }

  /** The sets of entry `e` carry the indices 0, 1, 2, ... in table order. */
  ghost predicate DenseSetIndices(t: seq<WorkoutSet>, e: string) {
    forall k :: 0 <= k < |SetsOf(t, e)| ==> SetsOf(t, e)[k].setIndex == k
  }

  /** The entries of workout `w` carry the order indices 0, 1, 2, ... in table order. */
  ghost predicate DenseOrder(t: seq<WorkoutEntry>, w: string) {
    forall k :: 0 <= k < |EntriesOf(t, w)| ==> EntriesOf(t, w)[k].orderIndex == k
  }

  // ---------------------------------------------------------------- GymHome

  /** `createWorkout`'s record: started now, titled "Workout". */
  function NewWorkout(id: string, now: int): Workout {
    Workout(id, now, None, Some("Workout"), None)
  }

  /** `createWorkout`: adds one workout and returns the detail page it navigates to. */
  method CreateWorkout(db: AppDb, freshId: string, now: int) returns (location: string)
    requires db.Valid() && freshId !in Ids(db.workouts, WorkoutId)
    modifies db`workouts
    ensures db.workouts == old(db.workouts) + [NewWorkout(freshId, now)]
    ensures Get(db.workouts, WorkoutId, freshId) == Some(NewWorkout(freshId, now))
    ensures location == WorkoutPath(freshId)
    ensures db.Valid()
  {
    AddKeepsDistinct(db.workouts, NewWorkout(freshId, now), WorkoutId);
    db.workouts := db.workouts + [NewWorkout(freshId, now)];
    assert freshId in Ids(db.workouts, WorkoutId);
    UniqueKeyLookup(db.workouts, WorkoutId, |db.workouts| - 1);
    location := WorkoutPath(freshId);
  }

  /** In a table with distinct keys, looking up a record's key finds that record. */
  lemma UniqueKeyLookup<T>(t: seq<T>, id: T -> string, k: int)
    requires DistinctIds(t, id) && 0 <= k < |t|
    ensures Get(t, id, id(t[k])) == Some(t[k])
  {
    assert id(t[k]) in Ids(t, id);
    var r := Get(t, id, id(t[k])).value;
    var j :| 0 <= j < |t| && t[j] == r;
    assert id(t[j]) == id(t[k]);
  }

  // ---------------------------------------------------------------- ExerciseLibrary

  /** The exercise library's form state. */
  class ExerciseLibrary {
    var name: string
    var bodyPart: string
    var equipment: string
    var exerciseType: ExerciseType

    constructor ()
      ensures name == "" && bodyPart == "Full body" && equipment == "Bodyweight" && exerciseType == RepsWeight
    {
      name, bodyPart, equipment, exerciseType := "", "Full body", "Bodyweight", RepsWeight;
    }

    /**
     * `addExercise`: ignored while the name is blank; otherwise adds one exercise with the
     * name as typed (untrimmed) and the chosen fields, then clears the name.
     */
    method AddExercise(db: AppDb, freshId: string)
      requires db.Valid() && freshId !in Ids(db.exercises, ExerciseId)
      modifies this`name, db`exercises
      ensures Text.IsBlank(old(name)) ==> db.exercises == old(db.exercises) && name == old(name)
      ensures !Text.IsBlank(old(name)) ==>
        && db.exercises == old(db.exercises) + [Exercise(freshId, old(name), bodyPart, equipment, exerciseType, None)]
        && name == ""
      ensures db.Valid()
    {
      if Text.IsBlank(name) {
        return;
      }
      AddExerciseRecord(db, Exercise(freshId, name, bodyPart, equipment, exerciseType, None));
      name := "";
    }
  }

  // ---------------------------------------------------------------- WorkoutDetail

  /** The edits the detail page makes to a set through `updateSet`: reps, weight, tag, completion. */
  datatype SetUpdate = SetReps(reps: int) | SetWeight(weight: real) | SetTagTo(tag: SetTag) | MarkCompleted

  /**
   * A set with an update applied: exactly the edited field gets the new value; its key,
   * entry and index are never touched.
   */
  function ApplyUpdate(s: WorkoutSet, u: SetUpdate): (r: WorkoutSet)
    ensures r.id == s.id && r.entryId == s.entryId && r.setIndex == s.setIndex
    ensures r.durationSeconds == s.durationSeconds && r.distance == s.distance
    ensures r.reps == (if u.SetReps? then Some(u.reps) else s.reps)
    ensures r.weight == (if u.SetWeight? then Some(u.weight) else s.weight)
    ensures r.tag == (if u.SetTagTo? then u.tag else s.tag)
    ensures r.isCompleted == (u.MarkCompleted? || s.isCompleted)
  {
    match u
    case SetReps(n) => s.(reps := Some(n))
    case SetWeight(w) => s.(weight := Some(w))
    case SetTagTo(t) => s.(tag := t)
    case MarkCompleted => s.(isCompleted := true)
  }

  /** Retagging a set as a warmup takes it out of the volume and out of the record candidates. */
  lemma RetagWarmup(s: WorkoutSet, t: seq<WorkoutSet>)
    ensures Calc.VolumeForSet(ApplyUpdate(s, SetTagTo(Warmup))) == 0.0
    ensures Calc.Estimate1RM(ApplyUpdate(s, SetTagTo(Warmup))) == 0.0
    ensures ApplyUpdate(s, SetTagTo(Warmup)) !in Calc.Eligibles(t)
  {
  }

  /** `sets.update(key, changes)`: the record under `key`, if any, gets the changes; nothing else changes. */
  function UpdateSets(t: seq<WorkoutSet>, key: string, u: SetUpdate): (r: seq<WorkoutSet>)
    ensures |r| == |t|
    ensures forall k :: 0 <= k < |t| ==> r[k] == if t[k].id == key then ApplyUpdate(t[k], u) else t[k]
  {
    seq(|t|, k requires 0 <= k < |t| => if t[k].id == key then ApplyUpdate(t[k], u) else t[k])
  }

  lemma UpdateSetsOne(a: seq<WorkoutSet>, x: WorkoutSet, key: string, u: SetUpdate)
    ensures UpdateSets(a + [x], key, u) == UpdateSets(a, key, u) + [if x.id == key then ApplyUpdate(x, u) else x]
  {
  }

  /** Updating a filtered-in or filtered-out set. */
  lemma UpdateSetsKept(a: seq<WorkoutSet>, x: WorkoutSet, key: string, u: SetUpdate, e: string)
    ensures var ux := if x.id == key then ApplyUpdate(x, u) else x;
      UpdateSets(a + (if x.entryId == e then [x] else []), key, u)
      == UpdateSets(a, key, u) + (if ux.entryId == e then [ux] else [])
  {
    if x.entryId == e {
      UpdateSetsOne(a, x, key, u);
    } else {
      assert a + [] == a;
    }
  }

  /** Updating the table updates each entry's set list in the same way. */
  lemma {:induction false} UpdateCommutesWithSetsOf(t: seq<WorkoutSet>, key: string, u: SetUpdate, e: string)
    ensures SetsOf(UpdateSets(t, key, u), e) == UpdateSets(SetsOf(t, e), key, u)
    decreases |t|
  {
    if t != [] {
      var t', x := t[..|t| - 1], t[|t| - 1];
      var ux := if x.id == key then ApplyUpdate(x, u) else x;
      assert t == t' + [x];
      calc {
        SetsOf(UpdateSets(t, key, u), e);
        == { UpdateSetsOne(t', x, key, u); }
        SetsOf(UpdateSets(t', key, u) + [ux], e);
        == { SetsOfSnoc(UpdateSets(t', key, u), ux, e); }
        SetsOf(UpdateSets(t', key, u), e) + (if ux.entryId == e then [ux] else []);
        == { UpdateCommutesWithSetsOf(t', key, u, e); }
        UpdateSets(SetsOf(t', e), key, u) + (if ux.entryId == e then [ux] else []);
        == { UpdateSetsKept(SetsOf(t', e), x, key, u, e); }
        UpdateSets(SetsOf(t', e) + (if x.entryId == e then [x] else []), key, u);
        == { SetsOfSnoc(t', x, e); }
        UpdateSets(SetsOf(t, e), key, u);
      }
    }
  }

  /** Updating a set keeps keys, entries and indices, so every entry's indices stay dense. */
  lemma UpdateKeepsDense(t: seq<WorkoutSet>, key: string, u: SetUpdate, e: string)
    requires DenseSetIndices(t, e)
    ensures DenseSetIndices(UpdateSets(t, key, u), e)
    ensures Ids(UpdateSets(t, key, u), SetId) == Ids(t, SetId)
  {
    UpdateCommutesWithSetsOf(t, key, u, e);
    var r := UpdateSets(t, key, u);
    assert forall k :: 0 <= k < |t| ==> r[k].id == t[k].id;
  }

  /** The blank set `addSet` creates for entry `e` at index `i`. */
  function NewSet(id: string, e: string, i: int, tag: SetTag): WorkoutSet {
    WorkoutSet(id, e, i, None, None, None, None, false, tag)
  }

  /** Adding a set to `e` at index `|SetsOf(t, e)|` keeps the indices of every entry dense. */
  lemma AddSetKeepsDense(t: seq<WorkoutSet>, id: string, e: string, tag: SetTag, f: string)
    requires DenseSetIndices(t, f)
    ensures DenseSetIndices(t + [NewSet(id, e, |SetsOf(t, e)|, tag)], f)
  {
    SetsOfSnoc(t, NewSet(id, e, |SetsOf(t, e)|, tag), f);
  }

  /** The new entry `addEntry` creates. The superset fields are set only for a non-empty group. */
  function NewEntry(id: string, w: string, exerciseId: string, orderIndex: int, group: string, groupOrder: int): (r: WorkoutEntry)
    ensures r.supersetGroupId.Some? <==> group != ""
    ensures r.supersetOrderIndex.Some? <==> group != ""
    ensures group != "" ==> r.supersetGroupId == Some(group) && r.supersetOrderIndex == Some(groupOrder)
  {
    WorkoutEntry(id, w, exerciseId, orderIndex,
      if group == "" then None else Some(group),
      if group == "" then None else Some(groupOrder))
  }

  /** Adding an entry at index `|EntriesOf(t, w)|` keeps every workout's order dense. */
  lemma AddEntryKeepsDense(t: seq<WorkoutEntry>, id: string, w: string, x: string, group: string, groupOrder: int, v: string)
    requires DenseOrder(t, v)
    ensures DenseOrder(t + [NewEntry(id, w, x, |EntriesOf(t, w)|, group, groupOrder)], v)
  {
    EntriesOfSnoc(t, NewEntry(id, w, x, |EntriesOf(t, w)|, group, groupOrder), v);
  }

  /** The rest time after completing a set: the warmup default for warmup sets, else the working default. */
  function RestSecondsFor(tag: SetTag, settings: Settings): (n: int)
    ensures tag == Warmup ==> n == settings.defaultRestTimerWarmupSeconds
    ensures tag != Warmup ==> n == settings.defaultRestTimerWorkingSeconds
  {
    if tag == Warmup then settings.defaultRestTimerWarmupSeconds else settings.defaultRestTimerWorkingSeconds
  }

  /** `templates.add(t)` for a fresh key. */
  method AddTemplateRecord(db: AppDb, t: Template)
    requires db.Valid() && t.id !in Ids(db.templates, TemplateId)
    modifies db`templates
    ensures db.templates == old(db.templates) + [t] && db.Valid()
  {
    AddKeepsDistinct(db.templates, t, TemplateId);
    db.templates := db.templates + [t];
  }

  /** `exercises.add(e)` for a fresh key. */
  method AddExerciseRecord(db: AppDb, e: Exercise)
    requires db.Valid() && e.id !in Ids(db.exercises, ExerciseId)
    modifies db`exercises
    ensures db.exercises == old(db.exercises) + [e] && db.Valid()
  {
    AddKeepsDistinct(db.exercises, e, ExerciseId);
    db.exercises := db.exercises + [e];
  }

  /** `templateEntries.bulkAdd(xs)` for distinct fresh keys. */
  method AddTemplateEntryRecords(db: AppDb, xs: seq<TemplateEntry>, ids: seq<string>)
    requires db.Valid() && |xs| == |ids| && (forall k :: 0 <= k < |xs| ==> xs[k].id == ids[k])
    requires DistinctKeys(ids) && AllFresh(ids, db.templateEntries, TemplateEntryId)
    modifies db`templateEntries
    ensures db.templateEntries == old(db.templateEntries) + xs && db.Valid()
  {
    AppendFresh(db.templateEntries, xs, TemplateEntryId, ids);
    db.templateEntries := db.templateEntries + xs;
  }

  /** The planned set count of a template entry: the entry's set count, or 3 when it has none. */
  function PlannedSets(t: seq<WorkoutSet>, e: string): (n: int)
    ensures n >= 1
    ensures |SetsOf(t, e)| > 0 ==> n == |SetsOf(t, e)|
    ensures |SetsOf(t, e)| == 0 ==> n == 3
  {
    if |SetsOf(t, e)| > 0 then |SetsOf(t, e)| else 3
  }

  /** The template entries `saveAsTemplate` writes: one per workout entry, in the same order. */
  function TemplateEntriesFor(entries: seq<WorkoutEntry>, templateId: string, ids: seq<string>, sets: seq<WorkoutSet>): (r: seq<TemplateEntry>)
    requires |ids| == |entries|
    ensures |r| == |entries|
    ensures forall k :: 0 <= k < |entries| ==>
      && r[k].id == ids[k] && r[k].templateId == templateId
      && r[k].exerciseId == entries[k].exerciseId && r[k].orderIndex == entries[k].orderIndex
      && r[k].supersetGroupId == entries[k].supersetGroupId
      && r[k].supersetOrderIndex == entries[k].supersetOrderIndex
      && r[k].plannedSets == PlannedSets(sets, entries[k].id) && r[k].plannedSets >= 1
  {
    seq(|entries|, k requires 0 <= k < |entries| =>
      TemplateEntry(ids[k], templateId, entries[k].exerciseId, entries[k].orderIndex,
        entries[k].supersetGroupId, entries[k].supersetOrderIndex, PlannedSets(sets, entries[k].id)))
  }

  function OrderIndex(e: WorkoutEntry): int { e.orderIndex }

  /** The detail page's entry list: the workout's entries sorted by `orderIndex` (ties in table order). */
  function SortedEntries(t: seq<WorkoutEntry>, w: string): (r: seq<WorkoutEntry>)
    ensures multiset(r) == multiset(EntriesOf(t, w)) && |r| == |EntriesOf(t, w)|
    ensures Sorting.SortedBy(r, OrderIndex)
  {
    Sorting.SortBy(EntriesOf(t, w), OrderIndex)
  }

  /** The template name: the workout's title, or "Template" when the workout or its title is absent. */
  function TemplateName(workouts: seq<Workout>, w: string): string {
    match Get(workouts, WorkoutId, w)
    case None => "Template"
    case Some(workout) => workout.title.GetOr("Template")
  }

  /** The workout page's state: the route's workout key, the entry form and the rest-timer overlay. */
  class WorkoutDetail {
    const workoutId: Option<string>
    var selectedExercise: string
    var supersetGroup: string
    var supersetOrder: int
    var restState: RestTimer.RestTimerState
    var showTimer: bool

    /** The page opens with a fresh timer of the working rest time, hidden. */
    constructor (workoutId: Option<string>, settings: Settings)
      ensures this.workoutId == workoutId
      ensures selectedExercise == "" && supersetGroup == "" && supersetOrder == 1
      ensures restState == RestTimer.Create(settings.defaultRestTimerWorkingSeconds) && !showTimer
    {
      this.workoutId := workoutId;
      selectedExercise, supersetGroup, supersetOrder := "", "", 1;
      restState := RestTimer.Create(settings.defaultRestTimerWorkingSeconds);
      showTimer := false;
    }

    /** The route carries a non-empty workout key. */
    predicate HasId()
      reads this
    {
      workoutId.Some? && workoutId.value != ""
    }

    /**
     * `addEntry`: ignored without a selected exercise or workout key; otherwise appends one
     * entry whose `orderIndex` is the workout's current entry count.
     */
    method AddEntry(db: AppDb, freshId: string)
      requires db.Valid() && freshId !in Ids(db.workoutEntries, EntryId)
      modifies db`workoutEntries
      ensures selectedExercise == "" || !HasId() ==> db.workoutEntries == old(db.workoutEntries)
      ensures selectedExercise != "" && HasId() ==>
        db.workoutEntries == old(db.workoutEntries) + [NewEntry(freshId, workoutId.value, selectedExercise,
          |EntriesOf(old(db.workoutEntries), workoutId.value)|, supersetGroup, supersetOrder)]
      ensures db.Valid()
    {
      if selectedExercise == "" || !HasId() {
        return;
      }
      var w := workoutId.value;
      var orderIndex := |EntriesOf(db.workoutEntries, w)|;
      var entry := NewEntry(freshId, w, selectedExercise, orderIndex, supersetGroup, supersetOrder);
      AddKeepsDistinct(db.workoutEntries, entry, EntryId);
      db.workoutEntries := db.workoutEntries + [entry];
    }

    /** `addSet`: appends one uncompleted set whose index is the entry's current set count. */
    method AddSet(db: AppDb, entryId: string, tag: SetTag, freshId: string)
      requires db.Valid() && freshId !in Ids(db.sets, SetId)
      modifies db`sets
      ensures db.sets == old(db.sets) + [NewSet(freshId, entryId, |SetsOf(old(db.sets), entryId)|, tag)]
      ensures SetsOf(db.sets, entryId) == SetsOf(old(db.sets), entryId) + [db.sets[|db.sets| - 1]]
      ensures db.Valid()
    {
      var entrySets := SetsOf(db.sets, entryId);
      var s := NewSet(freshId, entryId, |entrySets|, tag);
      AddKeepsDistinct(db.sets, s, SetId);
      SetsOfSnoc(db.sets, s, entryId);
      db.sets := db.sets + [s];
    }

    /** `updateSet`: applies the update to the set with `workoutSet.id`. */
    method UpdateSet(db: AppDb, workoutSet: WorkoutSet, u: SetUpdate)
      requires db.Valid()
      modifies db`sets
      ensures db.sets == UpdateSets(old(db.sets), workoutSet.id, u)
      ensures db.Valid()
    {
      var t := db.sets;
      db.sets := UpdateSets(t, workoutSet.id, u);
      assert forall k :: 0 <= k < |t| ==> db.sets[k].id == t[k].id;
    }

    /**
     * `completeSet`: marks the set completed and shows a running countdown of the rest time
     * for its tag. The state has no start time: the page's per-second updater drives it.
     */
    method CompleteSet(db: AppDb, workoutSet: WorkoutSet, settings: Settings)
      requires db.Valid()
      modifies this`restState, this`showTimer, db`sets
      ensures db.sets == UpdateSets(old(db.sets), workoutSet.id, MarkCompleted)
      ensures restState == RestTimer.RestTimerState(RestTimer.Running,
        RestSecondsFor(workoutSet.tag, settings), RestSecondsFor(workoutSet.tag, settings), None)
      ensures showTimer
      ensures db.Valid()
    {
      UpdateSet(db, workoutSet, MarkCompleted);
      var nextSeconds := RestSecondsFor(workoutSet.tag, settings);
      restState := RestTimer.RestTimerState(RestTimer.Running, nextSeconds, nextSeconds, None);
      showTimer := true;
    }

    /**
     * `saveAsTemplate`: ignored without a workout key; otherwise adds one template named
     * after the workout and one template entry per workout entry, in page order.
     */
    method SaveAsTemplate(db: AppDb, templateId: string, entryIds: seq<string>)
      requires db.Valid() && templateId !in Ids(db.templates, TemplateId)
      requires HasId() ==> |entryIds| == |EntriesOf(db.workoutEntries, workoutId.value)|
      requires DistinctKeys(entryIds) && AllFresh(entryIds, db.templateEntries, TemplateEntryId)
      modifies db`templates, db`templateEntries
      ensures !HasId() ==> db.templates == old(db.templates) && db.templateEntries == old(db.templateEntries)
      ensures HasId() ==>
        && db.templates == old(db.templates) + [Template(templateId, TemplateName(db.workouts, workoutId.value))]
        && db.templateEntries == old(db.templateEntries) + TemplateEntriesFor(
             SortedEntries(db.workoutEntries, workoutId.value), templateId, entryIds, db.sets)
      ensures db.Valid()
    {
      if !HasId() {
        return;
      }
      var w := workoutId.value;
      var entries := SortedEntries(db.workoutEntries, w);
      AddTemplateRecord(db, Template(templateId, TemplateName(db.workouts, w)));
      AddTemplateEntryRecords(db, TemplateEntriesFor(entries, templateId, entryIds, db.sets), entryIds);
    }
  }

  // ---------------------------------------------------------------- the inline countdown

  /** One run of the page's per-second updater: a running state loses a second and completes at 0. */
  function IntervalStep(s: RestTimer.RestTimerState): (r: RestTimer.RestTimerState)
    ensures s.mode != RestTimer.Running ==> r == s
    ensures s.mode == RestTimer.Running ==>
      && r.remainingSeconds == RestTimer.Max(0, s.remainingSeconds - 1)
      && r.mode == (if r.remainingSeconds == 0 then RestTimer.Completed else RestTimer.Running)
      && r.totalSeconds == s.totalSeconds && r.lastStartedAt == s.lastStartedAt
  {
    if s.mode != RestTimer.Running then s
    else
      var next := s.(remainingSeconds := RestTimer.Max(0, s.remainingSeconds - 1));
      if next.remainingSeconds == 0 then next.(mode := RestTimer.Completed) else next
  }

  /** `n` runs of the updater. */
  function IntervalSteps(s: RestTimer.RestTimerState, n: nat): RestTimer.RestTimerState
    decreases n
  {
    if n == 0 then s else IntervalSteps(IntervalStep(s), n - 1)
  }

  /**
   * A running countdown from `r >= 1` seconds is still running with `r - k` left after
   * `k < r` seconds and has completed with 0 left after exactly `r` seconds.
   */
  lemma {:induction false} CountdownCompletes(s: RestTimer.RestTimerState, k: nat)
    requires s.mode == RestTimer.Running && 1 <= s.remainingSeconds && k <= s.remainingSeconds
    ensures k < s.remainingSeconds ==>
      IntervalSteps(s, k) == s.(remainingSeconds := s.remainingSeconds - k)
    ensures k == s.remainingSeconds ==>
      IntervalSteps(s, k) == s.(remainingSeconds := 0, mode := RestTimer.Completed)
    decreases k
  {
    if k > 0 {
      var s1 := IntervalStep(s);
      if s.remainingSeconds == 1 {
        assert s1 == s.(remainingSeconds := 0, mode := RestTimer.Completed);
        assert IntervalSteps(s1, k - 1) == s1;
      } else {
        CountdownCompletes(s1, k - 1);
      }
    }
  }

  /** Once the countdown is not running, further seconds change nothing. */
  lemma {:induction false} StoppedStaysPut(s: RestTimer.RestTimerState, n: nat)
    requires s.mode != RestTimer.Running
    ensures IntervalSteps(s, n) == s
    decreases n
  {
    if n > 0 {
      StoppedStaysPut(IntervalStep(s), n - 1);
    }
  }

  /** `onAdd(delta)`: adjusts the remaining seconds, not below 0; the total and the mode stay. */
  function OnAdd(s: RestTimer.RestTimerState, delta: int): (r: RestTimer.RestTimerState)
    ensures r.remainingSeconds == RestTimer.Max(0, s.remainingSeconds + delta) && r.remainingSeconds >= 0
    ensures r.totalSeconds == s.totalSeconds && r.mode == s.mode && r.lastStartedAt == s.lastStartedAt
  {
    s.(remainingSeconds := RestTimer.Max(0, s.remainingSeconds + delta))
  }

  /** The overlay's adjustment agrees with `addRestTimerSeconds` on the remaining time but leaves the total. */
  lemma OnAddVersusAddSeconds(s: RestTimer.RestTimerState, delta: int)
    ensures OnAdd(s, delta) == RestTimer.AddSeconds(s, delta).(totalSeconds := s.totalSeconds)
  {
  }

  /** After completing a set, the inline countdown finishes after exactly the rest time. */
  lemma CompleteSetCountdown(tag: SetTag, settings: Settings)
    requires RestSecondsFor(tag, settings) >= 1
    ensures var n := RestSecondsFor(tag, settings);
      IntervalSteps(RestTimer.RestTimerState(RestTimer.Running, n, n, None), n)
        == RestTimer.RestTimerState(RestTimer.Completed, 0, n, None)
  {
    var n := RestSecondsFor(tag, settings);
    CountdownCompletes(RestTimer.RestTimerState(RestTimer.Running, n, n, None), n);
  }

  // ---------------------------------------------------------------- Templates

  /** `where("templateId").equals(id)`: the template's entries, in table order. */
  function TemplateEntriesOf(t: seq<TemplateEntry>, templateId: string): (r: seq<TemplateEntry>)
    ensures forall x :: x in r <==> x in t && x.templateId == templateId
  {
    if t == [] then []
    else TemplateEntriesOf(t[..|t| - 1], templateId) + (if t[|t| - 1].templateId == templateId then [t[|t| - 1]] else [])
  }

  /** The workout entries `startFromTemplate` writes: one per template entry, indexed by position. */
  function EntriesFromTemplate(fetched: seq<TemplateEntry>, w: string, ids: seq<string>): (r: seq<WorkoutEntry>)
    requires |ids| == |fetched|
    ensures |r| == |fetched|
    ensures forall k :: 0 <= k < |fetched| ==>
      && r[k].id == ids[k] && r[k].workoutId == w && r[k].exerciseId == fetched[k].exerciseId
      && r[k].orderIndex == k
      && r[k].supersetGroupId == fetched[k].supersetGroupId
      && r[k].supersetOrderIndex == fetched[k].supersetOrderIndex
  {
    seq(|fetched|, k requires 0 <= k < |fetched| =>
      WorkoutEntry(ids[k], w, fetched[k].exerciseId, k, fetched[k].supersetGroupId, fetched[k].supersetOrderIndex))
  }

  /** `find(we => we.exerciseId === x)` from position `i`: the index of the first match. */
  function FirstWithExercise(es: seq<WorkoutEntry>, x: string, i: nat): (r: Option<nat>)
    requires i <= |es|
    ensures r.None? ==> forall j :: i <= j < |es| ==> es[j].exerciseId != x
    ensures r.Some? ==> i <= r.value < |es| && es[r.value].exerciseId == x
    ensures r.Some? ==> forall j :: i <= j < r.value ==> es[j].exerciseId != x
    decreases |es| - i
  {
    if i == |es| then None
    else if es[i].exerciseId == x then Some(i)
    else FirstWithExercise(es, x, i + 1)
  }

  /** How many sets the as-written loop pushes for one template entry. */
  function PushedFor(entry: TemplateEntry, refetched: seq<WorkoutEntry>): nat {
    if FirstWithExercise(refetched, entry.exerciseId, 0).Some? then RestTimer.Max(0, entry.plannedSets) else 0
  }

  /** How many sets the as-written loop pushes in all. */
  function PushedCount(fetched: seq<TemplateEntry>, refetched: seq<WorkoutEntry>): nat {
    if fetched == [] then 0
    else PushedCount(fetched[..|fetched| - 1], refetched) + PushedFor(fetched[|fetched| - 1], refetched)
  }

  /** `plannedSets` blank normal sets of entry `e`, indexed 0, 1, 2, ..., with the given keys. */
  function BlankSets(e: string, ids: seq<string>): (r: seq<WorkoutSet>)
    ensures |r| == |ids|
    ensures forall i :: 0 <= i < |ids| ==> r[i] == NewSet(ids[i], e, i, Normal)
  {
    seq(|ids|, i requires 0 <= i < |ids| => NewSet(ids[i], e, i, Normal))
  }

  /** The sets the as-written loop pushes for one template entry, onto the first matching workout entry. */
  function SetsFor(entry: TemplateEntry, refetched: seq<WorkoutEntry>, ids: seq<string>): (r: seq<WorkoutSet>)
    requires |ids| == PushedFor(entry, refetched)
    ensures |r| == |ids|
    ensures forall i :: 0 <= i < |ids| ==> r[i].id == ids[i]
  {
    match FirstWithExercise(refetched, entry.exerciseId, 0)
    case None => []
    case Some(k) => BlankSets(refetched[k].id, ids)
  }

  /**
   * The sets `startFromTemplate` adds, as written: each template entry's sets go to the
   * FIRST re-read workout entry with the same exercise.
   */
  function SetsAsWritten(fetched: seq<TemplateEntry>, refetched: seq<WorkoutEntry>, ids: seq<string>): (r: seq<WorkoutSet>)
    requires |ids| == PushedCount(fetched, refetched)
    ensures |r| == |ids|
    ensures forall i :: 0 <= i < |ids| ==> r[i].id == ids[i]
  {
    if fetched == [] then []
    else
      var init, last := fetched[..|fetched| - 1], fetched[|fetched| - 1];
      var c := PushedCount(init, refetched);
      var a, b := SetsAsWritten(init, refetched, ids[..c]), SetsFor(last, refetched, ids[c..]);
      KeyedConcat(a, b, ids, c);
      a + b
  }

  /** Two runs keyed by the two halves of `ids` are together keyed by `ids`. */
  lemma KeyedConcat(a: seq<WorkoutSet>, b: seq<WorkoutSet>, ids: seq<string>, c: nat)
    requires c <= |ids| && |a| == c && |b| == |ids| - c
    requires forall i :: 0 <= i < |a| ==> a[i].id == ids[..c][i]
    requires forall i :: 0 <= i < |b| ==> b[i].id == ids[c..][i]
    ensures |a + b| == |ids| && forall i :: 0 <= i < |ids| ==> (a + b)[i].id == ids[i]
  {
    forall i | 0 <= i < |ids|
      ensures (a + b)[i].id == ids[i]
    {
      if i < c {
        assert (a + b)[i] == a[i];
      } else {
        assert (a + b)[i] == b[i - c];
      }
    }
  }

  lemma PushedCountSnoc(fetched: seq<TemplateEntry>, x: TemplateEntry, refetched: seq<WorkoutEntry>)
    ensures PushedCount(fetched + [x], refetched) == PushedCount(fetched, refetched) + PushedFor(x, refetched)
  {
    assert (fetched + [x])[..|fetched|] == fetched;
  }

  /** Records keyed by distinct fresh keys can be appended to a table with distinct keys. */
  lemma AppendFresh<T>(t: seq<T>, xs: seq<T>, id: T -> string, ids: seq<string>)
    requires DistinctIds(t, id) && |xs| == |ids| && (forall k :: 0 <= k < |xs| ==> id(xs[k]) == ids[k])
    requires DistinctKeys(ids) && AllFresh(ids, t, id)
    ensures DistinctIds(t + xs, id)
  {
    AppendKeepsDistinct(t, xs, id);
  }

  /** `workouts.add(w)` for a fresh key. */
  method AddWorkoutRecord(db: AppDb, w: Workout)
    requires db.Valid() && w.id !in Ids(db.workouts, WorkoutId)
    modifies db`workouts
    ensures db.workouts == old(db.workouts) + [w] && db.Valid()
  {
    AddKeepsDistinct(db.workouts, w, WorkoutId);
    db.workouts := db.workouts + [w];
  }

  /** `workoutEntries.bulkAdd(xs)` for distinct fresh keys. */
  method AddEntryRecords(db: AppDb, xs: seq<WorkoutEntry>, ids: seq<string>)
    requires db.Valid() && |xs| == |ids| && (forall k :: 0 <= k < |xs| ==> xs[k].id == ids[k])
    requires DistinctKeys(ids) && AllFresh(ids, db.workoutEntries, EntryId)
    modifies db`workoutEntries
    ensures db.workoutEntries == old(db.workoutEntries) + xs && db.Valid()
  {
    AppendFresh(db.workoutEntries, xs, EntryId, ids);
    db.workoutEntries := db.workoutEntries + xs;
  }

  /** `sets.bulkAdd(xs)` for distinct fresh keys. */
  method AddSetRecords(db: AppDb, xs: seq<WorkoutSet>, ids: seq<string>)
    requires db.Valid() && |xs| == |ids| && (forall k :: 0 <= k < |xs| ==> xs[k].id == ids[k])
    requires DistinctKeys(ids) && AllFresh(ids, db.sets, SetId)
    modifies db`sets
    ensures db.sets == old(db.sets) + xs && db.Valid()
  {
    AppendFresh(db.sets, xs, SetId, ids);
    db.sets := db.sets + xs;
  }

  /** The template page's state: the name field of the new-template form. */
  class TemplatesView {
    var templateName: string

    constructor ()
      ensures templateName == ""
    {
      templateName := "";
    }

    /** `createTemplate`: ignored while the name is blank; otherwise adds a template with the trimmed name. */
    method CreateTemplate(db: AppDb, freshId: string)
      requires db.Valid() && freshId !in Ids(db.templates, TemplateId)
      modifies this, db`templates
      ensures Text.IsBlank(old(templateName)) ==> db.templates == old(db.templates) && templateName == old(templateName)
      ensures !Text.IsBlank(old(templateName)) ==>
        db.templates == old(db.templates) + [Template(freshId, Text.Trim(old(templateName)))] && templateName == ""
      ensures db.Valid()
    {
      if Text.IsBlank(templateName) {
        return;
      }
      var name := Text.Trim(templateName);
      AddTemplateRecord(db, Template(freshId, name));
      templateName := "";
    }

    /**
     * `startFromTemplate`: adds a workout, one entry per fetched template entry and the
     * planned sets, and returns the new workout's page. `fetched` and `refetched` are the
     * two queries' results, in the order the store returns them.
     */
    method StartFromTemplate(db: AppDb, templateId: string, fetched: seq<TemplateEntry>, workoutId: string, now: int,
                             entryIds: seq<string>, refetched: seq<WorkoutEntry>, setIds: seq<string>)
      returns (location: string)
      requires db.Valid()
      requires multiset(fetched) == multiset(TemplateEntriesOf(db.templateEntries, templateId))
      requires workoutId !in Ids(db.workouts, WorkoutId)
      requires |entryIds| == |fetched| && DistinctKeys(entryIds) && AllFresh(entryIds, db.workoutEntries, EntryId)
      // Re-reading the entries by workout key finds only those created here, since that key is fresh.
      requires multiset(refetched) == multiset(EntriesFromTemplate(fetched, workoutId, entryIds))
      requires |setIds| == PushedCount(fetched, refetched) && DistinctKeys(setIds) && AllFresh(setIds, db.sets, SetId)
      modifies db`workouts, db`workoutEntries, db`sets
      ensures db.workouts == old(db.workouts) + [NewWorkout(workoutId, now)]
      ensures db.workoutEntries == old(db.workoutEntries) + EntriesFromTemplate(fetched, workoutId, entryIds)
      ensures db.sets == old(db.sets) + SetsAsWritten(fetched, refetched, setIds)
      ensures location == WorkoutPath(workoutId)
      ensures db.Valid()
    {
      AddWorkoutRecord(db, NewWorkout(workoutId, now));
      AddEntryRecords(db, EntriesFromTemplate(fetched, workoutId, entryIds), entryIds);
      var setsToAdd := PlanSets(fetched, refetched, setIds);
      if |setsToAdd| > 0 {
        AddSetRecords(db, setsToAdd, setIds);
      }
      location := WorkoutPath(workoutId);
    }
  }

  /**
   * The nested loops of `startFromTemplate` that fill `setsToAdd`: for each fetched template
   * entry, `plannedSets` blank normal sets on the first re-read entry with its exercise.
   */
  method PlanSets(fetched: seq<TemplateEntry>, refetched: seq<WorkoutEntry>, setIds: seq<string>)
    returns (setsToAdd: seq<WorkoutSet>)
    requires |setIds| == PushedCount(fetched, refetched)
    ensures setsToAdd == SetsAsWritten(fetched, refetched, setIds)
  {
    setsToAdd := [];
    var k, base := 0, 0;
    while k < |fetched|
      invariant 0 <= k <= |fetched|
      invariant base == PushedCount(fetched[..k], refetched) <= |setIds|
      invariant setsToAdd == SetsAsWritten(fetched[..k], refetched, setIds[..base])
    {
      var n := PushedFor(fetched[k], refetched);
      SetsAsWrittenStep(fetched, refetched, setIds, k);
      var pushed := PushForEntry(fetched[k], refetched, setIds[base..base + n]);
      setsToAdd := setsToAdd + pushed;
      assert setsToAdd == SetsAsWritten(fetched[..k + 1], refetched, setIds[..base + n]);
      k, base := k + 1, base + n;
    }
    SetsAsWrittenWhole(fetched, refetched, setIds);
  }

  lemma SetsAsWrittenWhole(fetched: seq<TemplateEntry>, refetched: seq<WorkoutEntry>, setIds: seq<string>)
    requires |setIds| == PushedCount(fetched, refetched)
    ensures PushedCount(fetched[..|fetched|], refetched) == |setIds|
    ensures SetsAsWritten(fetched[..|fetched|], refetched, setIds[..|setIds|]) == SetsAsWritten(fetched, refetched, setIds)
  {
    assert fetched[..|fetched|] == fetched;
    assert setIds[..|setIds|] == setIds;
  }

  /** One template entry's iteration: its sets on the first matching entry, or none. */
  method PushForEntry(entry: TemplateEntry, refetched: seq<WorkoutEntry>, ids: seq<string>) returns (pushed: seq<WorkoutSet>)
    requires |ids| == PushedFor(entry, refetched)
    ensures pushed == SetsFor(entry, refetched, ids)
  {
    var found := FirstWithExercise(refetched, entry.exerciseId, 0);
    pushed := [];
    if found.Some? {
      pushed := PushBlankSets(refetched[found.value].id, entry.plannedSets, ids);
    }
  }

  /** The inner loop `for (let i = 0; i < plannedSets; i += 1) setsToAdd.push(...)`. */
  method PushBlankSets(e: string, plannedSets: int, ids: seq<string>) returns (pushed: seq<WorkoutSet>)
    requires |ids| == RestTimer.Max(0, plannedSets)
    ensures pushed == BlankSets(e, ids)
  {
    pushed := [];
    var i := 0;
    while i < plannedSets
      invariant 0 <= i <= |ids|
      invariant pushed == BlankSets(e, ids[..i])
    {
      BlankSetsSnoc(e, ids[..i], ids[i]);
      assert ids[..i + 1] == ids[..i] + [ids[i]];
      pushed := pushed + [NewSet(ids[i], e, i, Normal)];
      i := i + 1;
    }
    assert ids[..i] == ids;
  }

  lemma SliceSnoc<T>(s: seq<T>, a: int, b: int)
    requires 0 <= a <= b < |s|
    ensures s[a..b + 1] == s[a..b] + [s[b]]
  {
  }

  lemma BlankSetsSnoc(e: string, ids: seq<string>, x: string)
    ensures BlankSets(e, ids + [x]) == BlankSets(e, ids) + [NewSet(x, e, |ids|, Normal)]
  {
  }

  /** One round of the outer loop extends the as-written result by the sets of the next template entry. */
  lemma SetsAsWrittenStep(fetched: seq<TemplateEntry>, refetched: seq<WorkoutEntry>, setIds: seq<string>, k: nat)
    requires k < |fetched| && |setIds| == PushedCount(fetched, refetched)
    ensures var base, n := PushedCount(fetched[..k], refetched), PushedFor(fetched[k], refetched);
      && PushedCount(fetched[..k + 1], refetched) == base + n <= |setIds|
      && SetsAsWritten(fetched[..k + 1], refetched, setIds[..base + n])
         == SetsAsWritten(fetched[..k], refetched, setIds[..base]) + SetsFor(fetched[k], refetched, setIds[base..base + n])
  {
    var base, n := PushedCount(fetched[..k], refetched), PushedFor(fetched[k], refetched);
    assert fetched[..k + 1] == fetched[..k] + [fetched[k]];
    PushedCountSnoc(fetched[..k], fetched[k], refetched);
    PushedPrefix(fetched, refetched, k + 1);
    var ids := setIds[..base + n];
    SetsAsWrittenSnoc(fetched[..k], fetched[k], refetched, ids);
    assert ids[..base] == setIds[..base] && ids[base..] == setIds[base..base + n];
  }

  /** `SetsAsWritten` of a list with one more template entry, unfolded once. */
  lemma SetsAsWrittenSnoc(init: seq<TemplateEntry>, x: TemplateEntry, refetched: seq<WorkoutEntry>, ids: seq<string>)
    requires |ids| == PushedCount(init + [x], refetched)
    ensures PushedCount(init, refetched) <= |ids|
    ensures SetsAsWritten(init + [x], refetched, ids)
         == SetsAsWritten(init, refetched, ids[..PushedCount(init, refetched)])
            + SetsFor(x, refetched, ids[PushedCount(init, refetched)..])
  {
    PushedCountSnoc(init, x, refetched);
    assert (init + [x])[..|init|] == init && (init + [x])[|init|] == x;
  }

  /** A prefix of the fetched list pushes no more sets than the whole list. */
  lemma {:induction false} PushedPrefix(fetched: seq<TemplateEntry>, refetched: seq<WorkoutEntry>, n: nat)
    requires n <= |fetched|
    ensures PushedCount(fetched[..n], refetched) <= PushedCount(fetched, refetched)
    decreases |fetched| - n
  {
    if n < |fetched| {
      PushedPrefix(fetched, refetched, n + 1);
      assert fetched[..n + 1][..n] == fetched[..n];
    } else {
      assert fetched[..n] == fetched;
    }
  }


  // ---------------------------------------------------------------- duplicate exercises in a template

  /**
   * With the same exercise twice in a template, as written both template entries' sets land
   * on the first workout entry, which then holds two sets with index 0, while the second
   * workout entry gets none.
   */
  lemma DuplicateExerciseCounterexample()
    ensures var fetched := [TemplateEntry("t1", "tpl", "x", 0, None, None, 1), TemplateEntry("t2", "tpl", "x", 1, None, None, 1)];
      var refetched := EntriesFromTemplate(fetched, "w", ["e1", "e2"]);
      && PushedCount(fetched, refetched) == 2
      && SetsAsWritten(fetched, refetched, ["s1", "s2"]) == [NewSet("s1", "e1", 0, Normal), NewSet("s2", "e1", 0, Normal)]
      && !DenseSetIndices(SetsAsWritten(fetched, refetched, ["s1", "s2"]), "e1")
  {
    var t1, t2 := TemplateEntry("t1", "tpl", "x", 0, None, None, 1), TemplateEntry("t2", "tpl", "x", 1, None, None, 1);
    var fetched := [t1, t2];
    var refetched := EntriesFromTemplate(fetched, "w", ["e1", "e2"]);
    assert refetched[0].id == "e1" && refetched[0].exerciseId == "x";
    assert FirstWithExercise(refetched, "x", 0) == Some(0);
    assert fetched[..1] == [t1] && [t1][..0] == [];
    assert PushedCount([t1], refetched) == 1;
    assert PushedCount(fetched, refetched) == 2;
    var ids := ["s1", "s2"];
    assert ids[..1] == ["s1"] && ids[1..] == ["s2"] && ids[..1][..0] == [] && ids[..1][0..] == ["s1"];
    assert SetsAsWritten([t1], refetched, ["s1"]) == [NewSet("s1", "e1", 0, Normal)];
    var r := SetsAsWritten(fetched, refetched, ids);
    assert r == [NewSet("s1", "e1", 0, Normal), NewSet("s2", "e1", 0, Normal)];
    assert r[..1] == [r[0]] && r[..1][..0] == [];
    assert SetsOf(r, "e1") == r;
    assert SetsOf(r, "e1")[1].setIndex == 0;
  }

  /** The number of sets a template plans in all, `plannedSets` below 0 counting as 0. */
  function PlannedTotal(fetched: seq<TemplateEntry>): nat {
    if fetched == [] then 0 else PlannedTotal(fetched[..|fetched| - 1]) + RestTimer.Max(0, fetched[|fetched| - 1].plannedSets)
  }

  /**
   * The intended sets: each template entry's sets on the workout entry created from that
   * template entry (the one at the same position, key `entryIds[k]`).
   */
  function SetsCorrected(fetched: seq<TemplateEntry>, entryIds: seq<string>, ids: seq<string>): (r: seq<WorkoutSet>)
    requires |entryIds| == |fetched| && |ids| == PlannedTotal(fetched)
    ensures |r| == |ids|
  {
    if fetched == [] then []
    else
      var n := |fetched| - 1;
      var c := PlannedTotal(fetched[..n]);
      SetsCorrected(fetched[..n], entryIds[..n], ids[..c]) + BlankSets(entryIds[n], ids[c..])
  }

  /** A table whose sets all belong to `f` is its own filter. */
  lemma {:induction false} SetsOfAll(t: seq<WorkoutSet>, f: string)
    requires forall k :: 0 <= k < |t| ==> t[k].entryId == f
    ensures SetsOf(t, f) == t
    decreases |t|
  {
    if t != [] {
      var t', x := t[..|t| - 1], t[|t| - 1];
      SetsOfAll(t', f);
      assert t == t' + [x];
    }
  }

  /** A table with none of `f`'s sets filters to nothing. */
  lemma {:induction false} SetsOfNone(t: seq<WorkoutSet>, f: string)
    requires forall k :: 0 <= k < |t| ==> t[k].entryId != f
    ensures SetsOf(t, f) == []
    decreases |t|
  {
    if t != [] {
      SetsOfNone(t[..|t| - 1], f);
    }
  }

  lemma SetsOfBlank(e: string, ids: seq<string>, f: string)
    ensures SetsOf(BlankSets(e, ids), f) == if e == f then BlankSets(e, ids) else []
  {
    if e == f {
      SetsOfAll(BlankSets(e, ids), f);
    } else {
      SetsOfNone(BlankSets(e, ids), f);
    }
  }

  /** A prefix of a template plans no more sets than the whole template. */
  lemma {:induction false} PlannedPrefix(fetched: seq<TemplateEntry>, n: nat)
    requires n <= |fetched|
    ensures PlannedTotal(fetched[..n]) <= PlannedTotal(fetched)
    decreases |fetched| - n
  {
    if n < |fetched| {
      PlannedPrefix(fetched, n + 1);
      assert fetched[..n + 1][..n] == fetched[..n];
    } else {
      assert fetched[..n] == fetched;
    }
  }

  /** A workout entry not created from the template gets no sets from the corrected plan. */
  lemma {:induction false} CorrectedOther(fetched: seq<TemplateEntry>, entryIds: seq<string>, ids: seq<string>, e: string)
    requires |entryIds| == |fetched| && |ids| == PlannedTotal(fetched) && e !in entryIds
    ensures SetsOf(SetsCorrected(fetched, entryIds, ids), e) == []
    decreases |fetched|
  {
    if fetched != [] {
      var n := |fetched| - 1;
      var c := PlannedTotal(fetched[..n]);
      CorrectedOther(fetched[..n], entryIds[..n], ids[..c], e);
      SetsOfAppend(SetsCorrected(fetched[..n], entryIds[..n], ids[..c]), BlankSets(entryIds[n], ids[c..]), e);
      SetsOfBlank(entryIds[n], ids[c..], e);
    }
  }

  /** The keys of the sets the corrected plan gives template entry `k`. */
  function OwnSlice(fetched: seq<TemplateEntry>, ids: seq<string>, k: nat): (r: seq<string>)
    requires k < |fetched| && |ids| == PlannedTotal(fetched)
    ensures |r| == RestTimer.Max(0, fetched[k].plannedSets)
  {
    PlannedPrefix(fetched, k + 1);
    PlannedCountOne(fetched, k);
    ids[PlannedTotal(fetched[..k])..PlannedTotal(fetched[..k + 1])]
  }

  /** Dropping the last template entry leaves the slices of the earlier ones in place. */
  lemma OwnSlicePrefix(fetched: seq<TemplateEntry>, ids: seq<string>, k: nat)
    requires k < |fetched| - 1 && |ids| == PlannedTotal(fetched)
    ensures var n := |fetched| - 1;
      OwnSlice(fetched[..n], ids[..PlannedTotal(fetched[..n])], k) == OwnSlice(fetched, ids, k)
  {
    var n := |fetched| - 1;
    PrefixBounds(fetched, ids, k);
    var c := PlannedTotal(fetched[..n]);
    SliceOfPrefix(ids, c, PlannedTotal(fetched[..k]), PlannedTotal(fetched[..k + 1]));
  }

  /** The planned totals that bound slice `k`, before and after dropping the last template entry. */
  lemma PrefixBounds(fetched: seq<TemplateEntry>, ids: seq<string>, k: nat)
    requires k < |fetched| - 1 && |ids| == PlannedTotal(fetched)
    ensures var n := |fetched| - 1;
      && PlannedTotal(fetched[..n][..k]) == PlannedTotal(fetched[..k])
      && PlannedTotal(fetched[..n][..k + 1]) == PlannedTotal(fetched[..k + 1])
      && PlannedTotal(fetched[..k]) <= PlannedTotal(fetched[..k + 1]) <= PlannedTotal(fetched[..n]) <= |ids|
  {
    var n := |fetched| - 1;
    PlannedPrefix(fetched, n);
    PlannedOfNestedPrefix(fetched, n, k);
    PlannedOfNestedPrefix(fetched, n, k + 1);
    PlannedPrefix(fetched[..n], k + 1);
    PlannedCountOne(fetched, k);
  }

  lemma SliceOfPrefix<T>(s: seq<T>, c: nat, x: nat, y: nat)
    requires x <= y <= c <= |s|
    ensures s[..c][x..y] == s[x..y]
  {
  }

  lemma PlannedOfNestedPrefix(fetched: seq<TemplateEntry>, n: nat, k: nat)
    requires k <= n <= |fetched|
    ensures PlannedTotal(fetched[..n][..k]) == PlannedTotal(fetched[..k])
  {
    assert fetched[..n][..k] == fetched[..k];
  }

  /** The last template entry's slice is the tail of the keys. */
  lemma OwnSliceLast(fetched: seq<TemplateEntry>, ids: seq<string>)
    requires |fetched| > 0 && |ids| == PlannedTotal(fetched)
    ensures var n := |fetched| - 1;
      OwnSlice(fetched, ids, n) == ids[PlannedTotal(fetched[..n])..]
  {
    assert fetched[..|fetched|] == fetched;
  }

  /** The corrected plan for a non-empty template, one step unfolded. */
  lemma SetsCorrectedUnfold(fetched: seq<TemplateEntry>, entryIds: seq<string>, ids: seq<string>, e: string)
    requires |entryIds| == |fetched| > 0 && |ids| == PlannedTotal(fetched)
    ensures var n := |fetched| - 1;
      var c := PlannedTotal(fetched[..n]);
      SetsOf(SetsCorrected(fetched, entryIds, ids), e)
        == SetsOf(SetsCorrected(fetched[..n], entryIds[..n], ids[..c]), e)
         + (if entryIds[n] == e then BlankSets(entryIds[n], ids[c..]) else [])
  {
    var n := |fetched| - 1;
    var c := PlannedTotal(fetched[..n]);
    SetsOfAppend(SetsCorrected(fetched[..n], entryIds[..n], ids[..c]), BlankSets(entryIds[n], ids[c..]), e);
    SetsOfBlank(entryIds[n], ids[c..], e);
  }

  /** The last template entry's workout entry gets exactly the last slice of blank sets. */
  lemma CorrectedOwnLast(fetched: seq<TemplateEntry>, entryIds: seq<string>, ids: seq<string>)
    requires |entryIds| == |fetched| > 0 && |ids| == PlannedTotal(fetched) && DistinctKeys(entryIds)
    ensures var n := |fetched| - 1;
      SetsOf(SetsCorrected(fetched, entryIds, ids), entryIds[n]) == BlankSets(entryIds[n], OwnSlice(fetched, ids, n))
  {
    var n := |fetched| - 1;
    var c := PlannedTotal(fetched[..n]);
    var e := entryIds[n];
    SetsCorrectedUnfold(fetched, entryIds, ids, e);
    assert e !in entryIds[..n];
    CorrectedOther(fetched[..n], entryIds[..n], ids[..c], e);
    OwnSliceLast(fetched, ids);
  }

  /** The entry created from template entry `k` gets exactly that entry's blank sets. */
  lemma {:induction false} CorrectedOwn(fetched: seq<TemplateEntry>, entryIds: seq<string>, ids: seq<string>, k: nat)
    requires |entryIds| == |fetched| && |ids| == PlannedTotal(fetched) && DistinctKeys(entryIds) && k < |fetched|
    ensures SetsOf(SetsCorrected(fetched, entryIds, ids), entryIds[k]) == BlankSets(entryIds[k], OwnSlice(fetched, ids, k))
    decreases |fetched|
  {
    var n := |fetched| - 1;
    if k == n {
      CorrectedOwnLast(fetched, entryIds, ids);
    } else {
      var c := PlannedTotal(fetched[..n]);
      var e := entryIds[k];
      SetsCorrectedUnfold(fetched, entryIds, ids, e);
      assert entryIds[..n][k] == e;
      CorrectedOwn(fetched[..n], entryIds[..n], ids[..c], k);
      OwnSlicePrefix(fetched, ids, k);
    }
  }

  /**
   * In the corrected plan every workout entry's sets are indexed 0, 1, 2, ..., and the
   * entry created from template entry k gets exactly its `plannedSets` sets.
   */
  lemma CorrectedSetsDense(fetched: seq<TemplateEntry>, entryIds: seq<string>, ids: seq<string>, e: string)
    requires |entryIds| == |fetched| && |ids| == PlannedTotal(fetched) && DistinctKeys(entryIds)
    ensures DenseSetIndices(SetsCorrected(fetched, entryIds, ids), e)
    ensures forall k :: 0 <= k < |fetched| && entryIds[k] == e ==>
      |SetsOf(SetsCorrected(fetched, entryIds, ids), e)| == RestTimer.Max(0, fetched[k].plannedSets)
  {
    if e in entryIds {
      var k :| 0 <= k < |entryIds| && entryIds[k] == e;
      CorrectedOwn(fetched, entryIds, ids, k);
      assert forall j :: 0 <= j < |fetched| && entryIds[j] == e ==> j == k;
    } else {
      CorrectedOther(fetched, entryIds, ids, e);
    }
  }

  /** Template entry `k` accounts for `max(0, plannedSets)` of the planned total. */
  lemma PlannedCountOne(fetched: seq<TemplateEntry>, k: nat)
    requires k < |fetched|
    ensures PlannedTotal(fetched[..k + 1]) == PlannedTotal(fetched[..k]) + RestTimer.Max(0, fetched[k].plannedSets)
  {
    assert fetched[..k + 1][..k] == fetched[..k];
  }

  // ----- What the as-written start gets right

  /** Every template entry's exercise is found among the re-read workout entries. */
  ghost predicate AllFound(fetched: seq<TemplateEntry>, refetched: seq<WorkoutEntry>) {
    forall k :: 0 <= k < |fetched| ==> FirstWithExercise(refetched, fetched[k].exerciseId, 0).Some?
  }

  /** The first re-read entry with exercise `x` exists and is the one keyed `e`. */
  ghost predicate FoundAs(refetched: seq<WorkoutEntry>, x: string, e: string) {
    var f := FirstWithExercise(refetched, x, 0);
    f.Some? && refetched[f.value].id == e
  }

  /** Each template entry's exercise is first found on the workout entry created from it. */
  ghost predicate FindsOwnEntry(fetched: seq<TemplateEntry>, entryIds: seq<string>, refetched: seq<WorkoutEntry>)
    requires |entryIds| == |fetched|
  {
    forall k :: 0 <= k < |fetched| ==> FoundAs(refetched, fetched[k].exerciseId, entryIds[k])
  }

  /** No exercise occurs twice in the template. */
  ghost predicate DistinctExercises(fetched: seq<TemplateEntry>) {
    forall i, j :: 0 <= i < j < |fetched| ==> fetched[i].exerciseId != fetched[j].exerciseId
  }

  /** When every exercise is found, the loop pushes every planned set. */
  lemma {:induction false} PushedAllPlanned(fetched: seq<TemplateEntry>, refetched: seq<WorkoutEntry>)
    requires AllFound(fetched, refetched)
    ensures PushedCount(fetched, refetched) == PlannedTotal(fetched)
    decreases |fetched|
  {
    if fetched != [] {
      var n := |fetched| - 1;
      var init := fetched[..n];
      assert AllFound(init, refetched) by {
        forall k | 0 <= k < |init| ensures FirstWithExercise(refetched, init[k].exerciseId, 0).Some? {
          assert init[k] == fetched[k];
        }
      }
      PushedAllPlanned(init, refetched);
      assert FirstWithExercise(refetched, fetched[n].exerciseId, 0).Some?;
    }
  }

  /** A row of the re-read entries is a row `startFromTemplate` created, and back. */
  lemma SameRows(fetched: seq<TemplateEntry>, w: string, entryIds: seq<string>, refetched: seq<WorkoutEntry>, x: WorkoutEntry)
    requires |entryIds| == |fetched|
    requires multiset(refetched) == multiset(EntriesFromTemplate(fetched, w, entryIds))
    ensures x in refetched <==> x in EntriesFromTemplate(fetched, w, entryIds)
  {
    assert x in refetched <==> x in multiset(refetched);
    assert x in EntriesFromTemplate(fetched, w, entryIds) <==> x in multiset(EntriesFromTemplate(fetched, w, entryIds));
  }

  /** The re-read entries are the created ones, so every exercise of the template is found. */
  lemma FromTemplateAllFound(fetched: seq<TemplateEntry>, w: string, entryIds: seq<string>, refetched: seq<WorkoutEntry>)
    requires |entryIds| == |fetched|
    requires multiset(refetched) == multiset(EntriesFromTemplate(fetched, w, entryIds))
    ensures AllFound(fetched, refetched)
  {
    var created := EntriesFromTemplate(fetched, w, entryIds);
    forall k | 0 <= k < |fetched| ensures FirstWithExercise(refetched, fetched[k].exerciseId, 0).Some? {
      SameRows(fetched, w, entryIds, refetched, created[k]);
      var j :| 0 <= j < |refetched| && refetched[j] == created[k];
      assert refetched[j].exerciseId == fetched[k].exerciseId;
    }
  }

  /**
   * `startFromTemplate` pushes exactly the planned number of sets: every template entry
   * finds a match, because the re-read entries are the ones created from the template.
   */
  lemma StartPushesPlanned(fetched: seq<TemplateEntry>, w: string, entryIds: seq<string>, refetched: seq<WorkoutEntry>)
    requires |entryIds| == |fetched|
    requires multiset(refetched) == multiset(EntriesFromTemplate(fetched, w, entryIds))
    ensures PushedCount(fetched, refetched) == PlannedTotal(fetched)
  {
    FromTemplateAllFound(fetched, w, entryIds, refetched);
    PushedAllPlanned(fetched, refetched);
  }

  /** With no exercise repeated, each template entry's exercise is first found on its own entry. */
  lemma FromTemplateFindsOwn(fetched: seq<TemplateEntry>, w: string, entryIds: seq<string>, refetched: seq<WorkoutEntry>)
    requires |entryIds| == |fetched| && DistinctExercises(fetched)
    requires multiset(refetched) == multiset(EntriesFromTemplate(fetched, w, entryIds))
    ensures FindsOwnEntry(fetched, entryIds, refetched)
  {
    var created := EntriesFromTemplate(fetched, w, entryIds);
    FromTemplateAllFound(fetched, w, entryIds, refetched);
    forall k | 0 <= k < |fetched| ensures FoundAs(refetched, fetched[k].exerciseId, entryIds[k]) {
      var f := FirstWithExercise(refetched, fetched[k].exerciseId, 0);
      assert f.Some?;
      SameRows(fetched, w, entryIds, refetched, refetched[f.value]);
      var m :| 0 <= m < |created| && created[m] == refetched[f.value];
      assert fetched[m].exerciseId == fetched[k].exerciseId;
      assert m == k;
    }
  }

  /** Finding its own entry for every template entry, the as-written sets are the corrected ones. */
  lemma {:induction false} OwnEntriesGiveCorrected(fetched: seq<TemplateEntry>, entryIds: seq<string>,
                                                    refetched: seq<WorkoutEntry>, ids: seq<string>)
    requires |entryIds| == |fetched| && FindsOwnEntry(fetched, entryIds, refetched)
    requires |ids| == PushedCount(fetched, refetched)
    ensures PushedCount(fetched, refetched) == PlannedTotal(fetched)
    ensures SetsAsWritten(fetched, refetched, ids) == SetsCorrected(fetched, entryIds, ids)
    decreases |fetched|
  {
    assert AllFound(fetched, refetched) by {
      forall k | 0 <= k < |fetched| ensures FirstWithExercise(refetched, fetched[k].exerciseId, 0).Some? {
        assert FoundAs(refetched, fetched[k].exerciseId, entryIds[k]);
      }
    }
    PushedAllPlanned(fetched, refetched);
    if fetched != [] {
      var n := |fetched| - 1;
      var init, last := fetched[..n], fetched[n];
      assert FindsOwnEntry(init, entryIds[..n], refetched) by {
        forall k | 0 <= k < |init| ensures FoundAs(refetched, init[k].exerciseId, entryIds[..n][k]) {
          assert init[k] == fetched[k] && entryIds[..n][k] == entryIds[k];
          assert FoundAs(refetched, fetched[k].exerciseId, entryIds[k]);
        }
      }
      var c := PushedCount(init, refetched);
      OwnEntriesGiveCorrected(init, entryIds[..n], refetched, ids[..c]);
      assert FoundAs(refetched, last.exerciseId, entryIds[n]);
      var f := FirstWithExercise(refetched, last.exerciseId, 0);
      assert SetsFor(last, refetched, ids[c..]) == BlankSets(entryIds[n], ids[c..]);
    }
  }

  /**
   * When no exercise is repeated, the as-written start writes exactly the corrected sets:
   * whatever order the store re-reads the entries in, each template entry's sets go on
   * the entry created from it.
   */
  lemma DistinctExercisesAsCorrected(fetched: seq<TemplateEntry>, w: string, entryIds: seq<string>,
                                     refetched: seq<WorkoutEntry>, ids: seq<string>)
    requires |entryIds| == |fetched| && DistinctExercises(fetched)
    requires multiset(refetched) == multiset(EntriesFromTemplate(fetched, w, entryIds))
    requires |ids| == PushedCount(fetched, refetched)
    ensures PushedCount(fetched, refetched) == PlannedTotal(fetched)
    ensures SetsAsWritten(fetched, refetched, ids) == SetsCorrected(fetched, entryIds, ids)
  {
    FromTemplateFindsOwn(fetched, w, entryIds, refetched);
    OwnEntriesGiveCorrected(fetched, entryIds, refetched, ids);
  }

  /**
   * When no exercise is repeated, the as-written start gives every created entry its
   * `max(0, plannedSets)` sets, indexed 0, 1, 2, ....
   */
  lemma DistinctExercisesDense(fetched: seq<TemplateEntry>, w: string, entryIds: seq<string>,
                               refetched: seq<WorkoutEntry>, ids: seq<string>, e: string)
    requires |entryIds| == |fetched| && DistinctKeys(entryIds) && DistinctExercises(fetched)
    requires multiset(refetched) == multiset(EntriesFromTemplate(fetched, w, entryIds))
    requires |ids| == PushedCount(fetched, refetched)
    ensures DenseSetIndices(SetsAsWritten(fetched, refetched, ids), e)
    ensures forall k :: 0 <= k < |fetched| && entryIds[k] == e ==>
      |SetsOf(SetsAsWritten(fetched, refetched, ids), e)| == RestTimer.Max(0, fetched[k].plannedSets)
  {
    DistinctExercisesAsCorrected(fetched, w, entryIds, refetched, ids);
    CorrectedSetsDense(fetched, entryIds, ids, e);
  }

  // ---------------------------------------------------------------- ExerciseDetail

  /** One point of an exercise's charts: the workout's start and the entry's volume and best estimate. */
  datatype DataPoint = DataPoint(startedAt: int, volume: real, best1rm: real)

  /** `workouts.find(item => item.id === key)`. */
  function FindWorkout(ws: seq<Workout>, key: string): (r: Option<Workout>)
    ensures r.None? <==> forall w :: w in ws ==> w.id != key
    ensures r.Some? ==> r.value in ws && r.value.id == key
  {
    if ws == [] then None else if ws[0].id == key then Some(ws[0]) else FindWorkout(ws[1..], key)
  }

  /** `reduce((sum, set) => sum + volumeForSet(set), 0)`. */
  function TotalVolume(sets: seq<WorkoutSet>): real {
    if sets == [] then 0.0 else TotalVolume(sets[..|sets| - 1]) + Calc.VolumeForSet(sets[|sets| - 1])
  }

  /** `Math.max(...sets.map(estimate1RM), 0)`: the largest estimate, or 0 when all are below 0 or there are none. */
  function BestEstimate(sets: seq<WorkoutSet>): (m: real)
    ensures m >= 0.0
    ensures forall s :: s in sets ==> Calc.Estimate1RM(s) <= m
    ensures m == 0.0 || exists s :: s in sets && Calc.Estimate1RM(s) == m
  {
    if sets == [] then 0.0
    else
      var rest := BestEstimate(sets[..|sets| - 1]);
      var x := Calc.Estimate1RM(sets[|sets| - 1]);
      assert sets == sets[..|sets| - 1] + [sets[|sets| - 1]];
      if x > rest then x else rest
  }

  /** The point for one entry: none when its workout is missing. */
  function DataPointFor(entry: WorkoutEntry, workouts: seq<Workout>, sets: seq<WorkoutSet>): (r: Option<DataPoint>)
    ensures r.None? <==> FindWorkout(workouts, entry.workoutId).None?
    ensures r.Some? ==>
      && r.value.startedAt == FindWorkout(workouts, entry.workoutId).value.startedAt
      && r.value.volume == TotalVolume(SetsOf(sets, entry.id))
      && r.value.best1rm == BestEstimate(SetsOf(sets, entry.id)) && r.value.best1rm >= 0.0
  {
    match FindWorkout(workouts, entry.workoutId)
    case None => None
    case Some(w) => Some(DataPoint(w.startedAt, TotalVolume(SetsOf(sets, entry.id)), BestEstimate(SetsOf(sets, entry.id))))
  }

  /** `dataPoints`: one point per entry whose workout exists, in entry order. */
  function DataPoints(entries: seq<WorkoutEntry>, workouts: seq<Workout>, sets: seq<WorkoutSet>): (r: seq<DataPoint>)
    ensures |r| <= |entries|
  {
    if entries == [] then []
    else
      var last := entries[|entries| - 1];
      DataPoints(entries[..|entries| - 1], workouts, sets) +
        match DataPointFor(last, workouts, sets)
        case None => []
        case Some(p) => [p]
  }

  /** Entries whose workout exists. */
  function WithWorkout(entries: seq<WorkoutEntry>, workouts: seq<Workout>): nat {
    if entries == [] then 0
    else
      var found := FindWorkout(workouts, entries[|entries| - 1].workoutId).Some?;
      WithWorkout(entries[..|entries| - 1], workouts) + (if found then 1 else 0)
  }

  /** Points are built entry by entry: concatenating entry lists concatenates their points. */
  lemma {:induction false} DataPointsAppend(a: seq<WorkoutEntry>, b: seq<WorkoutEntry>, workouts: seq<Workout>, sets: seq<WorkoutSet>)
    ensures DataPoints(a + b, workouts, sets) == DataPoints(a, workouts, sets) + DataPoints(b, workouts, sets)
    decreases |b|
  {
    if b == [] {
      assert a + b == a;
    } else {
      assert (a + b)[..|a + b| - 1] == a + b[..|b| - 1];
      DataPointsAppend(a, b[..|b| - 1], workouts, sets);
    }
  }

  /** There is one point per entry whose workout exists, and every best estimate is at least 0. */
  lemma {:induction false} DataPointsShape(entries: seq<WorkoutEntry>, workouts: seq<Workout>, sets: seq<WorkoutSet>)
    ensures |DataPoints(entries, workouts, sets)| == WithWorkout(entries, workouts)
    ensures forall k :: 0 <= k < |DataPoints(entries, workouts, sets)| ==> DataPoints(entries, workouts, sets)[k].best1rm >= 0.0
    decreases |entries|
  {
    if entries != [] {
      DataPointsShape(entries[..|entries| - 1], workouts, sets);
    }
  }

  /** Warmup sets add nothing to an entry's volume. */
  lemma WarmupAddsNoVolume(sets: seq<WorkoutSet>, s: WorkoutSet)
    requires Calc.IsWarmup(s)
    ensures TotalVolume(sets + [s]) == TotalVolume(sets)
  {
    assert (sets + [s])[..|sets|] == sets;
  }

  /** The records card, as written: the records of EVERY set in the store. */
  function ExerciseRecordsAsWritten(sets: seq<WorkoutSet>): Calc.RecordResult {
    Calc.GetRecordSets(sets)
  }

  /** The sets belonging to one of `entries`. */
  function SetsOfEntries(sets: seq<WorkoutSet>, entries: seq<WorkoutEntry>): (r: seq<WorkoutSet>)
    ensures forall s :: s in r <==> s in sets && exists k :: 0 <= k < |entries| && entries[k].id == s.entryId
  {
    if sets == [] then []
    else
      SetsOfEntries(sets[..|sets| - 1], entries) +
        if exists k :: 0 <= k < |entries| && entries[k].id == sets[|sets| - 1].entryId then [sets[|sets| - 1]] else []
  }

  /** The intended records card: the records among the sets of this exercise's entries. */
  function ExerciseRecords(entries: seq<WorkoutEntry>, sets: seq<WorkoutSet>): (r: Calc.RecordResult)
    ensures r.bestActual.Some? ==>
      && r.bestActual.value in sets
      && exists k :: 0 <= k < |entries| && entries[k].id == r.bestActual.value.entryId
    ensures r.bestPredicted.Some? ==>
      && r.bestPredicted.value in sets
      && exists k :: 0 <= k < |entries| && entries[k].id == r.bestPredicted.value.entryId
  {
    var own := SetsOfEntries(sets, entries);
    RecordsAreInputs(own);
    Calc.GetRecordSets(own)
  }

  /** Each record is one of the sets searched. */
  lemma RecordsAreInputs(sets: seq<WorkoutSet>)
    ensures Calc.GetRecordSets(sets).bestActual.Some? ==> Calc.GetRecordSets(sets).bestActual.value in sets
    ensures Calc.GetRecordSets(sets).bestPredicted.Some? ==> Calc.GetRecordSets(sets).bestPredicted.value in sets
  {
    var r := Calc.GetRecordSets(sets);
    var f := Calc.Eligibles(sets);
    if r.bestActual.Some? {
      var k :| Calc.IsFirstBest(f, Calc.WeightOrZero, k) && f[k] == r.bestActual.value;
      assert f[k] in f;
    }
    if r.bestPredicted.Some? {
      var k :| Calc.IsFirstBest(f, Calc.Estimate1RM, k) && f[k] == r.bestPredicted.value;
      assert f[k] in f;
    }
  }

  /** An exercise never trained shows, as written, another exercise's set as its record. */
  lemma RecordsCounterexample()
    ensures var other := WorkoutSet("s1", "other-entry", 0, Some(5), Some(100.0), None, None, true, Normal);
      && ExerciseRecordsAsWritten([other]).bestActual == Some(other)
      && ExerciseRecords([], [other]).bestActual.None?
  {
    var other := WorkoutSet("s1", "other-entry", 0, Some(5), Some(100.0), None, None, true, Normal);
    assert Calc.Eligible(other);
    assert [other][1..] == [];
    assert Calc.Eligibles([other]) == [other];
    assert Calc.BestFrom([other], Calc.WeightOrZero, 0, 1) == 0;
    assert Calc.BestFrom([other], Calc.WeightOrZero, 0, 0) == 0;
  }
}

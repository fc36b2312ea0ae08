/**
 * The record types of the local store and its tables (packages/core/src/db.ts).
 * Timestamps, which the source keeps as ISO strings, are integers (milliseconds).
 * Each table is a sequence of records in insertion order whose `id`s are distinct:
 * `id` is every table's primary key.
 */
module Db {
  import opened Wrappers

  datatype ExerciseType = RepsWeight | Assisted | Duration | DistanceDuration

  datatype Exercise = Exercise(
    id: string,
    name: string,
    bodyPart: string,
    equipment: string,
    exerciseType: ExerciseType,
    notes: Option<string>)

  datatype Workout = Workout(
    id: string,
    startedAt: int,
    finishedAt: Option<int>,
    title: Option<string>,
    notes: Option<string>)

  datatype WorkoutEntry = WorkoutEntry(
    id: string,
    workoutId: string,
    exerciseId: string,
    orderIndex: int,
    supersetGroupId: Option<string>,
    supersetOrderIndex: Option<int>)

  datatype SetTag = Normal | Warmup | Dropset | Failure

  /** Reps, weight, duration and distance are optional; completion and the tag are not. */
  datatype WorkoutSet = WorkoutSet(
    id: string,
    entryId: string,
    setIndex: int,
    reps: Option<int>,
    weight: Option<real>,
    durationSeconds: Option<real>,
    distance: Option<real>,
    isCompleted: bool,
    tag: SetTag)

  datatype Template = Template(id: string, name: string)

  datatype TemplateEntry = TemplateEntry(
    id: string,
    templateId: string,
    exerciseId: string,
    orderIndex: int,
    supersetGroupId: Option<string>,
    supersetOrderIndex: Option<int>,
    plannedSets: int)

  /** The only kind of measurement is bodyweight. */
  datatype MeasurementKind = Bodyweight

  /** A bodyweight measurement; the value is always held in kilograms. */
  datatype Measurement = Measurement(
    id: string,
    measuredAt: int,
    kind: MeasurementKind,
    valueKg: real,
    notes: Option<string>)

  datatype WeightUnit = Kg | Lb

  /** The settings record has one fixed key, which makes it a singleton. */
  type SettingsId = s: string | s == "settings" witness "settings"

  datatype Settings = Settings(
    id: SettingsId,
    units: WeightUnit,
    defaultRestTimerWorkingSeconds: int,
    defaultRestTimerWarmupSeconds: int,
    goalBodyweightKg: Option<real>,
    barWeightKg: Option<real>)

  const DEFAULT_SETTINGS: Settings := Settings("settings", Kg, 120, 60, None, None)

  /** No two records of `t` share a primary key. */
  ghost predicate DistinctIds<T>(t: seq<T>, id: T -> string) {
    forall i, j :: 0 <= i < j < |t| ==> id(t[i]) != id(t[j])
  }

  /** The primary keys present in `t`. */
  ghost function Ids<T>(t: seq<T>, id: T -> string): set<string> {
    set i | 0 <= i < |t| :: id(t[i])
  }

  /** Appending a record with an unused key keeps the keys distinct. */
  lemma AddKeepsDistinct<T>(t: seq<T>, x: T, id: T -> string)
    requires DistinctIds(t, id) && id(x) !in Ids(t, id)
    ensures DistinctIds(t + [x], id)
    ensures Ids(t + [x], id) == Ids(t, id) + {id(x)}
  {
    assert forall i :: 0 <= i < |t| ==> id(t[i]) in Ids(t, id);
    assert forall i :: 0 <= i < |t| ==> (t + [x])[i] == t[i];
    forall k | k in Ids(t + [x], id) ensures k in Ids(t, id) + {id(x)} {
      var i :| 0 <= i < |t + [x]| && id((t + [x])[i]) == k;
      if i < |t| { assert id(t[i]) == k; }
    }
    forall k | k in Ids(t, id) + {id(x)} ensures k in Ids(t + [x], id) {
      if k == id(x) {
        assert id((t + [x])[|t|]) == k;
      } else {
        var i :| 0 <= i < |t| && id(t[i]) == k;
        assert id((t + [x])[i]) == k;
      }
    }
  }

  /** Appending records with distinct, unused keys keeps the keys distinct. */
  lemma AppendKeepsDistinct<T>(t: seq<T>, xs: seq<T>, id: T -> string)
    requires DistinctIds(t, id) && DistinctIds(xs, id)
    requires forall k :: 0 <= k < |xs| ==> id(xs[k]) !in Ids(t, id)
    ensures DistinctIds(t + xs, id)
  {
    forall i, j | 0 <= i < j < |t + xs| ensures id((t + xs)[i]) != id((t + xs)[j]) {
      if j >= |t| && i < |t| {
        assert id(t[i]) in Ids(t, id);
        assert (t + xs)[j] == xs[j - |t|];
      }
    }
  }

  /** `table.get(key)`: the record stored under `key`, if any. */
  function Get<T>(t: seq<T>, id: T -> string, key: string): (r: Option<T>)
    ensures r.None? <==> key !in Ids(t, id)
    ensures r.Some? ==> r.value in t && id(r.value) == key
  {
    if t == [] then None
    else if id(t[0]) == key then Some(t[0])
    else
      var r := Get(t[1..], id, key);
      assert Ids(t, id) == {id(t[0])} + Ids(t[1..], id) by {
        assert forall i :: 0 < i < |t| ==> t[i] == t[1..][i - 1];
        assert forall i :: 0 <= i < |t| - 1 ==> t[1..][i] == t[i + 1];
      }
      r
  }

  /** The settings table's key. */
  function SettingsKey(s: Settings): string { s.id }

  /** Every settings record has the key "settings", so a table with distinct keys holds at most one. */
  lemma SettingsSingleton(t: seq<Settings>)
    requires DistinctIds(t, SettingsKey)
    ensures |t| <= 1
    ensures forall i :: 0 <= i < |t| ==> t[i].id == "settings"
  {
    if |t| >= 2 {
      var a, b := t[0].id, t[1].id;
      assert false;
    }
  }

  lemma IdsCons<T>(a: T, s: seq<T>, id: T -> string)
    ensures Ids([a] + s, id) == {id(a)} + Ids(s, id)
  {
    var t := [a] + s;
    forall k | k in Ids(t, id) ensures k in {id(a)} + Ids(s, id) {
      var i :| 0 <= i < |t| && id(t[i]) == k;
      if i > 0 { assert t[i] == s[i - 1]; }
    }
    forall k | k in Ids(s, id) ensures k in Ids(t, id) {
      var i :| 0 <= i < |s| && id(s[i]) == k;
      assert t[i + 1] == s[i];
    }
    assert id(t[0]) in Ids(t, id);
  }

  lemma DistinctCons<T>(a: T, s: seq<T>, id: T -> string)
    ensures DistinctIds([a] + s, id) <==> DistinctIds(s, id) && id(a) !in Ids(s, id)
  {
    var t := [a] + s;
    assert forall i :: 0 <= i < |s| ==> t[i + 1] == s[i];
    if DistinctIds(t, id) {
      forall i, j | 0 <= i < j < |s| ensures id(s[i]) != id(s[j]) {
        assert id(t[i + 1]) != id(t[j + 1]);
      }
      forall i | 0 <= i < |s| ensures id(s[i]) != id(a) {
        assert id(t[0]) != id(t[i + 1]);
      }
    }
  }

  /**
   * `table.put(x)`: an upsert by primary key. The record stored under `x`'s key is
   * replaced by `x`; when there is none, `x` is added.
   */
  function Put<T>(t: seq<T>, x: T, id: T -> string): (r: seq<T>)
    ensures x in r
    ensures forall y :: y in r ==> y == x || y in t
    ensures Ids(r, id) == Ids(t, id) + {id(x)}
    decreases |t|
  {
    if t == [] then [x]
    else if id(t[0]) == id(x) then
      assert t == [t[0]] + t[1..];
      IdsCons(t[0], t[1..], id);
      IdsCons(x, t[1..], id);
      [x] + t[1..]
    else
      var r := Put(t[1..], x, id);
      assert t == [t[0]] + t[1..];
      IdsCons(t[0], t[1..], id);
      IdsCons(t[0], r, id);
      [t[0]] + r
  }

  /** On a table with distinct keys, `put` keeps the keys distinct, makes `x` the only record under its key and keeps every other record. */
  lemma {:induction false} PutKeepsOthers<T>(t: seq<T>, x: T, id: T -> string)
    requires DistinctIds(t, id)
    ensures DistinctIds(Put(t, x, id), id)
    ensures forall y :: y in Put(t, x, id) && y != x ==> id(y) != id(x)
    ensures forall y :: y in t && id(y) != id(x) ==> y in Put(t, x, id)
    decreases |t|
  {
    if t != [] {
      var a, rest := t[0], t[1..];
      assert t == [a] + rest;
      DistinctCons(a, rest, id);
      PutKeepsOthers(rest, x, id);
      if id(a) == id(x) {
        DistinctCons(x, rest, id);
        forall y | y in rest ensures id(y) != id(x) {
          var i :| 0 <= i < |rest| && rest[i] == y;
          assert id(rest[i]) in Ids(rest, id);
        }
      } else {
        var r := Put(rest, x, id);
        DistinctCons(a, r, id);
      }
    }
  }

  /** In a table with distinct keys, two records with the same key are the same record. */
  lemma SameKeySame<T>(t: seq<T>, a: T, b: T, id: T -> string)
    requires DistinctIds(t, id) && a in t && b in t && id(a) == id(b)
    ensures a == b
  {
    var i :| 0 <= i < |t| && t[i] == a;
    var j :| 0 <= j < |t| && t[j] == b;
    assert i == j;
  }

  /** Reading after `put`: the key written reads back `x`; every other key reads as before. */
  lemma PutThenGet<T>(t: seq<T>, x: T, id: T -> string)
    requires DistinctIds(t, id)
    ensures Get(Put(t, x, id), id, id(x)) == Some(x)
    ensures forall k :: k != id(x) ==> Get(Put(t, x, id), id, k) == Get(t, id, k)
  {
    var r := Put(t, x, id);
    PutKeepsOthers(t, x, id);
    forall k | k != id(x)
      ensures Get(r, id, k) == Get(t, id, k)
    {
      if k in Ids(t, id) {
        var a, b := Get(t, id, k).value, Get(r, id, k).value;
        assert b != x && b in t;
        SameKeySame(t, a, b, id);
      }
    }
  }

  /** Every settings record has the key "settings", so `put` on the settings table leaves exactly the new record. */
  lemma PutSettingsTable(t: seq<Settings>, s: Settings)
    requires DistinctIds(t, SettingsKey)
    ensures Put(t, s, SettingsKey) == [s]
  {
    SettingsSingleton(t);
    if |t| == 1 {
      assert t[1..] == [];
    }
  }

  /** The defaults: kg, 120 s working rest, 60 s warmup rest, no goal and no bar weight. */
  lemma DefaultSettingsValues()
    ensures DEFAULT_SETTINGS.id == "settings" && DEFAULT_SETTINGS.units == Kg
    ensures DEFAULT_SETTINGS.defaultRestTimerWorkingSeconds == 120
    ensures DEFAULT_SETTINGS.defaultRestTimerWarmupSeconds == 60
    ensures DEFAULT_SETTINGS.goalBodyweightKg.None? && DEFAULT_SETTINGS.barWeightKg.None?
  {
  }

  function ExerciseId(e: Exercise): string { e.id }
  function WorkoutId(w: Workout): string { w.id }
  function EntryId(e: WorkoutEntry): string { e.id }
  function SetId(s: WorkoutSet): string { s.id }
  function TemplateId(t: Template): string { t.id }
  function TemplateEntryId(e: TemplateEntry): string { e.id }
  function MeasurementId(m: Measurement): string { m.id }

  /** The store: one table per record type, each keyed by `id`. */
  class AppDb {
    var exercises: seq<Exercise>
    var workouts: seq<Workout>
    var workoutEntries: seq<WorkoutEntry>
    var sets: seq<WorkoutSet>
    var templates: seq<Template>
    var templateEntries: seq<TemplateEntry>
    var measurements: seq<Measurement>
    var settings: seq<Settings>

    /** Every table's primary keys are distinct. */
    ghost predicate Valid()
      reads this
    {
      && DistinctIds(exercises, ExerciseId)
      && DistinctIds(workouts, WorkoutId)
      && DistinctIds(workoutEntries, EntryId)
      && DistinctIds(sets, SetId)
      && DistinctIds(templates, TemplateId)
      && DistinctIds(templateEntries, TemplateEntryId)
      && DistinctIds(measurements, MeasurementId)
      && DistinctIds(settings, SettingsKey)
    }

    /** A store on a device that has never been used: every table is empty. */
    constructor ()
      ensures Valid()
      ensures exercises == [] && workouts == [] && workoutEntries == [] && sets == []
      ensures templates == [] && templateEntries == [] && measurements == [] && settings == []
    {
      exercises, workouts, workoutEntries, sets := [], [], [], [];
      templates, templateEntries, measurements, settings := [], [], [], [];
    }
  }
}

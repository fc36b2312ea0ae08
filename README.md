# Sport Scale: a verified model of the tracker's domain layer

Sport Scale is a local-first gym and bodyweight tracker. This project models its domain
layer in Dafny and proves properties of that model.

- **Rest timer.** A four-mode state machine on whole seconds, rounded down (floor) from
  millisecond timestamps.
- **Set analytics.** Volume, the Epley-style one-rep-maximum estimate, and record
  selection where the first maximum wins.
- **CSV export.** Header union in order of first appearance, and field escaping in the
  style of section 2 of RFC 4180, with lines joined by LF.
- **App context.** The settings state and the kg/lb conversions.
- **The store.** Its record types and defaults.
- **Store flows:**
  - the first-run seed;
  - the settings singleton;
  - the gym feature's workout, entry, set and template flows;
  - the saving of weight measurements.
- **Feature registry.** A stably sorted navigation bar and the flattened route table.
- **Weight trend analytics.** The trailing moving average and the insight card.
- **The two gym plugins' payloads.** Their schema, volume sums and entry forms:
  - the feature package under `packages/feature-gym`;
  - the older standalone copy under `src/`.
  The two are kept apart, as the source keeps them.

## Conventions

- **Store tables** are sequences of records in insertion order, with distinct `id`s.
  - The store is the class `Db.AppDb`, with one field per table.
  - Components re-read a table after every write. So a component's snapshot is the
    table itself.
- **Outside inputs are parameters:**
  - fresh `crypto.randomUUID()` keys;
  - clock readings, as integer milliseconds;
  - `Number(text)`;
  - the plugin's schema check in `src/`.
- **Numbers.** Weights, volumes and averages are `real`. Counts and times are `int`.
- **React components with state** are classes whose fields are that state, and their
  handlers are methods. Pure helpers are functions.

Each module follows one source file:

| module | file |
|---|---|
| `RestTimer` | packages/core/src/utils/restTimer.ts |
| `Calc` | packages/core/src/utils/calc.ts |
| `Csv` | packages/core/src/utils/csv.ts |
| `Db` | packages/core/src/db.ts |
| `AppContext` | packages/core/src/context.tsx |
| `Seed` | packages/core/src/seed.ts |
| `Registry` | apps/sport_scale_app/src/features/registry.ts |
| `App` | apps/sport_scale_app/src/App.tsx |
| `GymFeature` | packages/feature-gym/src/feature.tsx |
| `WeightFeature` | packages/feature-weight/src/feature.tsx |
| `GymContracts` | packages/feature-gym/src/contracts.ts |
| `GymVolume` | packages/feature-gym/src/utils/volume.ts |
| `GymEntryForm` | packages/feature-gym/src/components/GymEntryForm.tsx |
| `SrcGym` | src/utils/volume.ts |
| `SrcGymEntryForm` | src/components/GymEntryForm.tsx |

The modules `Wrappers`, `Text` and `Sorting` stand in for JavaScript's built-ins:
- `Wrappers` holds `Option` and `Result`;
- `Text` holds `trim` and `join`;
- `Sorting` holds the stable `Array.prototype.sort`.

## Model

| member | source | states |
|---|---|---|
| RestTimer.ElapsedSeconds | packages/core/src/utils/restTimer.ts:23 | whole seconds elapsed, rounded down: `1000*e <= now - last < 1000*e + 1000` |
| RestTimer.Create | packages/core/src/utils/restTimer.ts:10-14 | idle, remaining = total = the given seconds, no start time |
| RestTimer.Start | packages/core/src/utils/restTimer.ts:16-19 | a running timer is returned unchanged; otherwise running from `now`, durations untouched |
| RestTimer.Pause | packages/core/src/utils/restTimer.ts:21-26 | identity unless running with a start time; otherwise paused with the elapsed seconds deducted (floored at 0) and no start time |
| RestTimer.Tick | packages/core/src/utils/restTimer.ts:28-36 | identity unless running; completes with 0 and no start time when nothing remains, else keeps running with the start time unchanged |
| RestTimer.Reset | packages/core/src/utils/restTimer.ts:38-42 | ignores its state and equals `Create(seconds)` |
| RestTimer.AddSeconds | packages/core/src/utils/restTimer.ts:44-51 | both durations adjusted and floored at 0; mode and start time unchanged |
| RestTimer.InvPreserved | packages/core/src/utils/restTimer.ts:10-51 | every transition keeps "remaining >= 0, and a start time exactly while running" |
| RestTimer.RemainingNonNegative | packages/core/src/utils/restTimer.ts:21-51 | pause, tick and add keep remaining >= 0; a tick that completes leaves 0 |
| RestTimer.TickPauseNeverIncrease | packages/core/src/utils/restTimer.ts:21-36 | with the clock not running backwards, pause and tick never add time |
| RestTimer.PauseThenStart | packages/core/src/utils/restTimer.ts:16-26 | pausing and restarting keeps remaining and total, and restarts from the new time |
| RestTimer.StartTickCompleteExample | packages/core/src/__tests__/restTimer.test.ts:12-20 | tick(start(create(10),0),5000) has 5 left; a tick at 15000 completes it with 0 |
| RestTimer.PauseAdjustResetExample | packages/core/src/__tests__/restTimer.test.ts:22-31 | pause at 5000 leaves 15, paused; -5 gives 10; reset(30) gives 30, idle |
| RestTimer.TickOverlapCounterexample | packages/core/src/utils/restTimer.ts:28-36 | ticks at 1000 and 2000 leave 7 of 10 seconds, where 8 remain in real time |
| RestTimer.TickAnchored | packages/core/src/utils/restTimer.ts:28-36 | the corrected tick: identity unless running, total unchanged |
| RestTimer.ElapsedSplit | packages/core/src/utils/restTimer.ts:30 | elapsed seconds from a moved anchor are the difference of the elapsed seconds |
| RestTimer.TickAnchoredComposes | packages/core/src/utils/restTimer.ts:28-36 | with the corrected tick, ticking at t1 and then t2 equals one tick at t2 |
| Calc.VolumeForSet | packages/core/src/utils/calc.ts:5-9 | 0 for a warmup set or one lacking reps or weight, else reps × weight |
| Calc.Estimate1RM | packages/core/src/utils/calc.ts:11-16 | 0 for warmup, missing values or reps outside [1, 12]; else weight × (1 + reps/30) |
| Calc.WarmupContributesNothing | packages/core/src/utils/calc.ts:3-16 | a warmup set has volume 0 and estimate 0, whatever its reps and weight |
| Calc.EstimateAtLeastWeight | packages/core/src/utils/calc.ts:15 | for reps in [1, 12] and weight >= 0 the estimate lies between the weight and 1.4 × weight |
| Calc.Eligibles | packages/core/src/utils/calc.ts:24 | membership is exactly "in the input, not a warmup, reps (absent as 0) at most 12" |
| Calc.Eligible | packages/core/src/utils/calc.ts:24 | the filter condition: not a warmup and at most 12 reps, an absent count as 0 |
| Calc.EligiblesAppend | packages/core/src/utils/calc.ts:24 | the filter keeps input order: it distributes over concatenation |
| Calc.BestFrom | packages/core/src/utils/calc.ts:28-40 | the fold with strict `>` yields an index with maximal key and every earlier key strictly smaller |
| Calc.GetRecordSets | packages/core/src/utils/calc.ts:23-43 | both records are absent iff no set is eligible; else each is the first eligible set with top weight, resp. top estimate |
| Calc.CalcExamples | packages/core/src/__tests__/calc.test.ts:16-24 | 5 × 100 has volume 500 (0 as warmup), estimate 350/3 ≈ 116.667, and 0 with 15 reps |
| Calc.RecordExample | packages/core/src/__tests__/calc.test.ts:26-35 | of the test's three sets, "a" is the actual and "b" the predicted record |
| Csv.DoubleQuotes | packages/core/src/utils/csv.ts:7 | never shorter; a value without quotes is returned unchanged |
| Csv.DoubleQuotesCounts | packages/core/src/utils/csv.ts:7 | twice as many quotes, every other character as often, longer by exactly the number of quotes |
| Csv.DoubleQuotesAppend | packages/core/src/utils/csv.ts:7 | the global replace works piece by piece: it distributes over concatenation |
| Csv.EscapeValue | packages/core/src/utils/csv.ts:3-10 | absent is ""; a value with `"`, `,` or LF is quoted with inner quotes doubled; others unchanged |
| Csv.NeedsQuoting | packages/core/src/utils/csv.ts:6 | the `/[",\n]/` test: a double quote, a comma or a line feed; a lone CR does not count |
| Csv.UndoubleDouble | packages/core/src/utils/csv.ts:7 | undoubling inverts doubling |
| Csv.EscapeRoundTrip | packages/core/src/utils/csv.ts:3-10 | unescaping an escaped value gives the value back |
| Csv.EscapeExamples | packages/core/src/utils/csv.ts:4-9 | absent gives ""; "a,b" is quoted; a lone CR is not |
| Csv.QuoteEscapeExample | packages/core/src/utils/csv.ts:7 | `x"y` is written as `"x""y"` |
| Csv.Keys | packages/core/src/utils/csv.ts:20 | a row's keys in field order |
| Csv.FirstIndex | packages/core/src/utils/csv.ts:18-23 | the index of the first occurrence of a key |
| Csv.Dedup | packages/core/src/utils/csv.ts:18-23 | insertion into an ordered set; `DedupProperties` states its contents and order |
| Csv.Headers | packages/core/src/utils/csv.ts:18-23 | the deduplicated keys of all rows; `HeadersExample` shows the order |
| Csv.Lookup | packages/core/src/utils/csv.ts:26 | a found value is stored under that key; `LookupAbsent` gives the missing-key case |
| Csv.DedupProperties | packages/core/src/utils/csv.ts:18-23 | headers hold every key exactly once, ordered by first appearance |
| Csv.LineFields | packages/core/src/utils/csv.ts:26 | one escaped field per header, in header order |
| Csv.MissingKeyIsEmpty | packages/core/src/utils/csv.ts:3-27 | a header the row lacks gives the empty field |
| Csv.LookupPresent | packages/core/src/utils/csv.ts:26 | a key the row has yields the value of its first field with that key |
| Csv.PresentKeyField | packages/core/src/utils/csv.ts:26 | a header the row has gives the escaped value of the row's first field with that key |
| Csv.Lines | packages/core/src/utils/csv.ts:24-27 | the header line, then one line per row in row order |
| Csv.CollectHeaders | packages/core/src/utils/csv.ts:18-23 | the `reduce`/`forEach` loop yields the deduplicated keys of all rows |
| Csv.AddRowKeys | packages/core/src/utils/csv.ts:20 | the inner `forEach` adds one row's keys to the ordered set |
| Csv.TableFile | packages/core/src/utils/csv.ts:28 | the file is named `<table>.csv` |
| Csv.ExportTableToCsv | packages/core/src/utils/csv.ts:12-29 | the file is `<table>.csv` and holds the lines joined by LF |
| Csv.ExportAllTables | packages/core/src/utils/csv.ts:31-47 | eight files, one per table, in the fixed table order |
| Csv.HeadersExample | packages/core/src/utils/csv.ts:18-23 | the first row's keys come first; a key only a later row has follows |
| Db.AddKeepsDistinct | packages/core/src/db.ts:88-95 | adding a record under an unused key keeps keys distinct and adds exactly that key |
| Db.AppendKeepsDistinct | packages/core/src/db.ts:88-95 | bulk-adding records with distinct unused keys keeps keys distinct |
| Db.Get | packages/core/src/db.ts:88-95 | `get(key)` is absent iff no record has the key, else a stored record with that key |
| Db.SettingsSingleton | packages/core/src/db.ts:66-96 | a settings table with distinct keys holds at most one record, keyed "settings" |
| Db.Put | packages/core/src/db.ts:86-95 | `put` upsert: the record is stored; every stored record is it or an old one; the keys are the old keys plus its key |
| Db.PutKeepsOthers | packages/core/src/db.ts:86-95 | on a table with distinct keys, `put` keeps keys distinct, drops only the record with the same key, keeps every other record |
| Db.PutThenGet | packages/core/src/db.ts:86-95 | `get` after `put` returns the record for its key and the old result for every other key |
| Db.PutSettingsTable | packages/core/src/db.ts:66-96 | on the settings table `put` leaves exactly the new record |
| Db.DefaultSettingsValues | packages/core/src/db.ts:100-107 | defaults: "settings", kg, 120 s, 60 s, no goal, no bar weight |
| Db.AppDb.constructor | packages/core/src/db.ts:75-98 | a new store has eight empty tables |
| AppContext.ToDisplayWeight | packages/core/src/context.tsx:44 | identity in kg; × 2.20462 in lb |
| AppContext.ToStorageWeight | packages/core/src/context.tsx:45 | identity in kg; ÷ 2.20462 in lb |
| AppContext.ConversionRoundTrip | packages/core/src/context.tsx:44-45 | the two conversions are inverse to each other in both units |
| AppContext.ConversionMonotone | packages/core/src/context.tsx:44-45 | both conversions keep order and non-negativity |
| AppContext.InitialSettings | packages/core/src/context.tsx:31-33 | the given settings, else `DEFAULT_SETTINGS` |
| AppContext.AppProvider.constructor | packages/core/src/context.tsx:25-33 | the state starts from the initial settings (unit kg without them); nothing is forwarded yet |
| AppContext.AppProvider.SetSettings | packages/core/src/context.tsx:35-38 | the state becomes `next`, the unit in force becomes `next`'s unit, and `next` is forwarded when there is a callback |
| AppContext.AppProvider.WeightUnitNow | packages/core/src/context.tsx:41 | always the unit of the current settings |
| AppContext.AppProvider.DisplayWeight | packages/core/src/context.tsx:40-47 | the shown value converts back to the stored one in the current unit; non-negative stays non-negative |
| AppContext.AppProvider.StorageWeight | packages/core/src/context.tsx:40-47 | the stored value shows back as the entered one in the current unit; non-negative stays non-negative |
| AppContext.ProviderRoundTrip | packages/core/src/context.tsx:40-47 | through one provider, store-after-show and show-after-store give the value back |
| AppContext.UseApp | packages/core/src/context.tsx:56-62 | fails, with the source's message, exactly when there is no provider; else the provider |
| Seed.SeedCatalogue | packages/core/src/seed.ts:3-39 | five exercises with distinct keys; only the plank is a duration exercise |
| Seed.SeededExercises | packages/core/src/seed.ts:41-45 | a non-empty table is unchanged; an empty one becomes the catalogue |
| Seed.SeedIdempotent | packages/core/src/seed.ts:41-45 | seeding twice equals seeding once, and leaves the table non-empty |
| Seed.SeedKeepsDistinct | packages/core/src/seed.ts:41-45 | seeding keeps exercise keys distinct |
| Seed.SeedIfEmpty | packages/core/src/seed.ts:41-45 | only the exercise table changes, to `SeededExercises` of its old contents |
| Sorting.Insert | apps/sport_scale_app/src/features/registry.ts:10-12 | inserting into a sorted list keeps it sorted and adds exactly the element |
| Sorting.SortBy | apps/sport_scale_app/src/features/registry.ts:10-12 | the sort is ascending and a permutation of its input |
| Sorting.InsertKeepsTies | apps/sport_scale_app/src/features/registry.ts:10-12 | an inserted element goes after every element of equal key |
| Sorting.SortByStable | apps/sport_scale_app/src/features/registry.ts:10-12 | elements of equal key keep their input order |
| Sorting.SortBySorted | packages/feature-weight/src/feature.tsx:110-112 | an already ascending list is returned unchanged |
| Registry.Navs | apps/sport_scale_app/src/features/registry.ts:10 | the features' nav entries, one per feature, in registration order |
| Registry.NavItems | apps/sport_scale_app/src/features/registry.ts:10-12 | a permutation of the nav entries, ascending by `order ?? 0` |
| Registry.NavItemsStable | apps/sport_scale_app/src/features/registry.ts:10-12 | entries of equal order keep registration order |
| Registry.FlatRoutes | apps/sport_scale_app/src/features/registry.ts:14 | no features give no routes; one feature gives its routes |
| Registry.FlatRoutesAppend | apps/sport_scale_app/src/features/registry.ts:14 | flattening distributes over concatenation of feature lists |
| Registry.FlatRoutesMembers | apps/sport_scale_app/src/features/registry.ts:14 | a route is listed iff some feature declares it |
| Registry.NavItemsContents | apps/sport_scale_app/src/features/registry.ts:8-12 | the bar reads Gym, Weight, Run, Nutrition, More |
| Registry.RoutesContents | apps/sport_scale_app/src/features/registry.ts:8-14 | the routes are the five features' routes in registration order |
| App.LoadSettings | apps/sport_scale_app/src/App.tsx:45-53 | no stored record: the defaults are stored and loaded; a stored record is loaded unchanged, nothing written |
| App.StoredIsOnly | apps/sport_scale_app/src/App.tsx:46-52 | the record found under "settings" is the table's only record |
| App.HandleSettingsChange | apps/sport_scale_app/src/App.tsx:20-22 | the table becomes `put(next)`, which is exactly `[next]`; `get` then returns `next`; the store stays valid |
| App.ChangeSettings | apps/sport_scale_app/src/App.tsx:20-25 | after a change through the provider, the state and the stored record agree |
| App.AppRoutes | apps/sport_scale_app/src/App.tsx:27-32 | "/" redirects to "/gym", then exactly one route per registered route, keyed by path |
| App.Matches | apps/sport_scale_app/src/App.tsx:28-30 | a path matches a pattern when equal, or when the pattern ends in `/*` and the path is its base or lies below it |
| App.RouteKeysDistinct | apps/sport_scale_app/src/App.tsx:29-31 | the route keys (paths) are distinct |
| App.RoutePaths | apps/sport_scale_app/src/features/registry.ts:14 | the five registered paths, "/gym/*" first |
| App.NavPaths | apps/sport_scale_app/src/features/registry.ts:10-12 | the five navigation paths in display order |
| App.NavEntryRouted | apps/sport_scale_app/src/App.tsx:29-34 | the k-th nav entry is matched by the k-th route |
| App.NavigationIsRouted | apps/sport_scale_app/src/App.tsx:29-34 | every navigation entry leads to a rendered route |
| App.GymPagesRouted | apps/sport_scale_app/src/App.tsx:28-31 | the root redirect target and nested gym pages fall under "/gym/*" |
| GymFeature.WorkoutPath | packages/feature-gym/src/feature.tsx:101 | `/gym/workout/<id>` |
| GymFeature.EntriesOf | packages/feature-gym/src/feature.tsx:244-247 | exactly the workout's entries, in table order |
| GymFeature.SetsOf | packages/feature-gym/src/feature.tsx:295 | the filter never lengthens; `SetsOfMembers` states its contents |
| GymFeature.NewSet | packages/feature-gym/src/feature.tsx:294-304 | the blank set `addSet` writes; `AddSetKeepsDense` states its index |
| GymFeature.NewWorkout | packages/feature-gym/src/feature.tsx:93-99 | the record `createWorkout` writes; `CreateWorkout` stores it |
| GymFeature.TemplateName | packages/feature-gym/src/feature.tsx:320 | the workout's title, else "Template" |
| GymFeature.TotalVolume | packages/feature-gym/src/feature.tsx:627 | the entry's volume; `WarmupAddsNoVolume` states that warmups add nothing |
| GymFeature.ExerciseRecordsAsWritten | packages/feature-gym/src/feature.tsx:638 | the records card as written, over every set; see Findings |
| GymFeature.SetsOfMembers | packages/feature-gym/src/feature.tsx:294-304 | the filter keeps exactly the sets of that entry |
| GymFeature.SetsOfAppend | packages/feature-gym/src/feature.tsx:295 | the filter distributes over concatenation |
| GymFeature.CreateWorkout | packages/feature-gym/src/feature.tsx:93-102 | one workout titled "Workout", started now, is added; returns its page |
| GymFeature.ExerciseLibrary.constructor | packages/feature-gym/src/feature.tsx:137-140 | the form's initial fields |
| GymFeature.ExerciseLibrary.AddExercise | packages/feature-gym/src/feature.tsx:142-153 | no-op for a blank name; else one exercise with the untrimmed name, then the name is cleared |
| GymFeature.ApplyUpdate | packages/feature-gym/src/feature.tsx:306-316 | reps, weight, tag and completion each become the edited value or stay; key, entry, index, duration and distance stay |
| GymFeature.RetagWarmup | packages/feature-gym/src/feature.tsx:420-423 | a set retagged warmup has volume 0 and estimate 0, and no longer counts for records |
| GymFeature.UpdateSets | packages/feature-gym/src/feature.tsx:307 | `sets.update(key, u)` changes only the record with that key |
| GymFeature.UpdateCommutesWithSetsOf | packages/feature-gym/src/feature.tsx:307 | updating the table updates each entry's set list alike |
| GymFeature.UpdateKeepsDense | packages/feature-gym/src/feature.tsx:306-309 | updates keep every entry's set indices 0, 1, 2, ... |
| GymFeature.AddSetKeepsDense | packages/feature-gym/src/feature.tsx:294-302 | adding at index = current count keeps indices 0, 1, 2, ... for every entry |
| GymFeature.NewEntry | packages/feature-gym/src/feature.tsx:283-290 | superset fields set only for a non-empty group |
| GymFeature.AddEntryKeepsDense | packages/feature-gym/src/feature.tsx:280-290 | adding at orderIndex = current count keeps every workout's order 0, 1, 2, ... |
| GymFeature.RestSecondsFor | packages/feature-gym/src/feature.tsx:313 | warmup rest for warmup sets, working rest for all other tags |
| GymFeature.AddTemplateRecord | packages/feature-gym/src/feature.tsx:321 | exactly one template is added |
| GymFeature.AddExerciseRecord | packages/feature-gym/src/feature.tsx:144-150 | exactly one exercise is added, and keys stay distinct |
| GymFeature.AddTemplateEntryRecords | packages/feature-gym/src/feature.tsx:322-332 | exactly the given template entries are appended |
| GymFeature.PlannedSets | packages/feature-gym/src/feature.tsx:330 | the entry's set count, or 3 when it has none; always >= 1 |
| GymFeature.TemplateEntriesFor | packages/feature-gym/src/feature.tsx:323-331 | one template entry per workout entry, fields copied, planned sets as above |
| GymFeature.SortedEntries | packages/feature-gym/src/feature.tsx:245 | the workout's entries sorted by orderIndex, a permutation |
| GymFeature.WorkoutDetail.constructor | packages/feature-gym/src/feature.tsx:256-260 | hidden timer, idle with the working rest time; empty form |
| GymFeature.WorkoutDetail.AddEntry | packages/feature-gym/src/feature.tsx:280-292 | no-op without exercise or key; else one entry at the current count |
| GymFeature.WorkoutDetail.AddSet | packages/feature-gym/src/feature.tsx:294-304 | one uncompleted set at index = the entry's set count |
| GymFeature.WorkoutDetail.UpdateSet | packages/feature-gym/src/feature.tsx:306-309 | the update is applied to the set with that key only |
| GymFeature.WorkoutDetail.CompleteSet | packages/feature-gym/src/feature.tsx:311-316 | set completed; timer running with remaining = total = the rest time for its tag; shown |
| GymFeature.WorkoutDetail.SaveAsTemplate | packages/feature-gym/src/feature.tsx:318-333 | no-op without key; else one template named after the workout and one entry per workout entry |
| GymFeature.IntervalStep | packages/feature-gym/src/feature.tsx:265-275 | non-running unchanged; running loses a second, floored at 0, completing at 0 |
| GymFeature.CountdownCompletes | packages/feature-gym/src/feature.tsx:262-278 | from r >= 1 it runs with r - k left for k < r and completes with 0 after exactly r steps |
| GymFeature.IntervalSteps | packages/feature-gym/src/feature.tsx:264-275 | n runs of the per-second updater; `CountdownCompletes` and `StoppedStaysPut` state its properties |
| GymFeature.StoppedStaysPut | packages/feature-gym/src/feature.tsx:266 | once not running, further steps change nothing |
| GymFeature.OnAdd | packages/feature-gym/src/feature.tsx:465-469 | remaining adjusted and floored at 0; mode and total unchanged |
| GymFeature.OnAddVersusAddSeconds | packages/feature-gym/src/feature.tsx:465-469 | agrees with `addRestTimerSeconds` on remaining, but keeps the total |
| GymFeature.CompleteSetCountdown | packages/feature-gym/src/feature.tsx:262-316 | after completing a set, the countdown ends after exactly the rest time |
| GymFeature.TemplateEntriesOf | packages/feature-gym/src/feature.tsx:514 | exactly the template's entries, in table order |
| GymFeature.EntriesFromTemplate | packages/feature-gym/src/feature.tsx:517-526 | one entry per template entry, orderIndex = position, fields copied |
| GymFeature.FirstWithExercise | packages/feature-gym/src/feature.tsx:530 | the first entry with the exercise, or none |
| GymFeature.BlankSets | packages/feature-gym/src/feature.tsx:532-540 | blank uncompleted normal sets indexed 0..n-1 |
| GymFeature.SetsFor | packages/feature-gym/src/feature.tsx:529-541 | one template entry's sets go on the first entry with its exercise, or none |
| GymFeature.SetsAsWritten | packages/feature-gym/src/feature.tsx:528-541 | the as-written sets: each template entry's sets on the first matching entry |
| GymFeature.AddWorkoutRecord | packages/feature-gym/src/feature.tsx:516 | exactly one workout is added |
| GymFeature.AddEntryRecords | packages/feature-gym/src/feature.tsx:517 | exactly the given entries are appended |
| GymFeature.AddSetRecords | packages/feature-gym/src/feature.tsx:543 | exactly the given sets are appended |
| GymFeature.TemplatesView.constructor | packages/feature-gym/src/feature.tsx:504 | an empty name field |
| GymFeature.TemplatesView.CreateTemplate | packages/feature-gym/src/feature.tsx:506-511 | no-op for a blank name; else one template with the trimmed name, then the field is cleared |
| GymFeature.TemplatesView.StartFromTemplate | packages/feature-gym/src/feature.tsx:513-546 | one workout, one entry per template entry, the as-written sets; returns the workout's page |
| GymFeature.StartPushesPlanned | packages/feature-gym/src/feature.tsx:529-543 | every template entry finds a match among the re-read entries, so exactly the planned total of sets is pushed |
| GymFeature.DistinctExercisesAsCorrected | packages/feature-gym/src/feature.tsx:529-543 | with no exercise repeated, the as-written sets equal the corrected ones, whatever order the entries are re-read in |
| GymFeature.DistinctExercisesDense | packages/feature-gym/src/feature.tsx:529-543 | with no exercise repeated, each created entry gets `max(0, plannedSets)` sets indexed 0, 1, 2, ... |
| GymFeature.FromTemplateFindsOwn | packages/feature-gym/src/feature.tsx:530-531 | with no exercise repeated, `find` returns the entry created from that template entry |
| GymFeature.OwnEntriesGiveCorrected | packages/feature-gym/src/feature.tsx:529-541 | when each `find` returns the entry's own workout entry, the loops write the corrected sets |
| GymFeature.PlanSets | packages/feature-gym/src/feature.tsx:528-541 | the nested loops compute `SetsAsWritten` |
| GymFeature.PushForEntry | packages/feature-gym/src/feature.tsx:530-540 | one iteration pushes `SetsFor` that entry |
| GymFeature.PushBlankSets | packages/feature-gym/src/feature.tsx:532-540 | the inner loop pushes `BlankSets` |
| GymFeature.SetsAsWrittenStep | packages/feature-gym/src/feature.tsx:529-541 | one outer round extends the result by the next entry's sets |
| GymFeature.DuplicateExerciseCounterexample | packages/feature-gym/src/feature.tsx:529-543 | a template with one exercise twice puts two sets at index 0 on the first entry and none on the second |
| GymFeature.SetsCorrected | packages/feature-gym/src/feature.tsx:529-543 | the corrected plan: each template entry's sets on the entry created from it |
| GymFeature.CorrectedOther | packages/feature-gym/src/feature.tsx:529-543 | an entry not created from the template gets no sets from the corrected plan |
| GymFeature.CorrectedOwn | packages/feature-gym/src/feature.tsx:529-543 | the entry created from template entry k gets exactly its planned blank sets |
| GymFeature.CorrectedSetsDense | packages/feature-gym/src/feature.tsx:529-543 | corrected: every entry's set indices are 0, 1, 2, ..., and entry k has `plannedSets` of them |
| GymFeature.FindWorkout | packages/feature-gym/src/feature.tsx:624 | the workout with that key, when it exists |
| GymFeature.BestEstimate | packages/feature-gym/src/feature.tsx:628 | at least 0 and every set's estimate, and equal to one of them or 0 |
| GymFeature.DataPointFor | packages/feature-gym/src/feature.tsx:623-634 | none without a workout; else the start time, the volume and the best estimate |
| GymFeature.DataPoints | packages/feature-gym/src/feature.tsx:620-636 | one point per entry whose workout exists, in entry order |
| GymFeature.DataPointsAppend | packages/feature-gym/src/feature.tsx:622-635 | points of concatenated entry lists concatenate |
| GymFeature.DataPointsShape | packages/feature-gym/src/feature.tsx:620-636 | as many points as entries with a workout; every best estimate >= 0 |
| GymFeature.WarmupAddsNoVolume | packages/feature-gym/src/feature.tsx:627 | a warmup set adds nothing to an entry's volume |
| GymFeature.SetsOfEntries | packages/feature-gym/src/feature.tsx:613-618 | exactly the sets belonging to one of the entries |
| GymFeature.ExerciseRecords | packages/feature-gym/src/feature.tsx:638 | corrected records: computed over this exercise's sets only |
| GymFeature.RecordsAreInputs | packages/core/src/utils/calc.ts:23-43 | each record is one of the sets searched |
| GymFeature.RecordsCounterexample | packages/feature-gym/src/feature.tsx:638 | as written, an untrained exercise shows another exercise's set as its record |
| WeightFeature.WindowStart | packages/feature-weight/src/feature.tsx:79 | `max(0, i - w + 1)`, at most i |
| WeightFeature.SmoothTrend | packages/feature-weight/src/feature.tsx:77-82 | one value per input value |
| WeightFeature.SmoothTrendWindow | packages/feature-weight/src/feature.tsx:78-81 | element i is the mean of `values[max(0, i-w+1) .. i]` |
| WeightFeature.SmoothTrendCausal | packages/feature-weight/src/feature.tsx:78-81 | element i depends only on values up to i |
| WeightFeature.Sum | packages/feature-weight/src/feature.tsx:81 | the left-to-right `reduce`; `SumBounds` bounds it |
| WeightFeature.Mean | packages/feature-weight/src/feature.tsx:81 | the window mean; `MeanBounds` and `MeanConstant` state its properties |
| WeightFeature.SumBounds | packages/feature-weight/src/feature.tsx:81 | a sum of values between lo and hi lies between n·lo and n·hi |
| WeightFeature.MeanBounds | packages/feature-weight/src/feature.tsx:81 | a mean lies between the smallest and largest value |
| WeightFeature.SmoothTrendFirst | packages/feature-weight/src/feature.tsx:79-81 | the first trend value is the first input |
| WeightFeature.SmoothTrendConstant | packages/feature-weight/src/feature.tsx:79-81 | a constant series maps to itself |
| WeightFeature.SmoothTrendWindowOne | packages/feature-weight/src/feature.tsx:77-82 | a window of 1 is the identity |
| WeightFeature.SmoothTrendBounded | packages/feature-weight/src/feature.tsx:77-82 | every trend value lies within the input's bounds |
| WeightFeature.ChronologicalOrder | packages/feature-weight/src/feature.tsx:110-112 | ascending by measurement time, a permutation of the log |
| WeightFeature.ChartData | packages/feature-weight/src/feature.tsx:114 | each value in the display unit, in chronological order |
| WeightFeature.ChartDataInKg | packages/feature-weight/src/feature.tsx:114 | in kg the chart shows the stored values |
| WeightFeature.TrendData | packages/feature-weight/src/feature.tsx:115 | one trend value per chart value, window 3 |
| WeightFeature.Lookback | packages/feature-weight/src/feature.tsx:121-123 | `data[max(0, n-k)]`: the element k back, or the first for short series |
| WeightFeature.LastSeven | packages/feature-weight/src/feature.tsx:124-125 | the last (at most) seven values |
| WeightFeature.SeqMin | packages/feature-weight/src/feature.tsx:124 | at most every value, and attained |
| WeightFeature.SeqMax | packages/feature-weight/src/feature.tsx:125 | at least every value, and attained |
| WeightFeature.RateSpan | packages/feature-weight/src/feature.tsx:126 | `min(30, n)` |
| WeightFeature.WeeklyRate | packages/feature-weight/src/feature.tsx:126 | `rate × span = 7 × delta`; the rate's sign is the delta's |
| WeightFeature.ComputeInsights | packages/feature-weight/src/feature.tsx:118-135 | none iff no data; deltas from `Lookback`; min7 <= last <= max7 bound the last seven |
| WeightFeature.RateWeekScaling | packages/feature-weight/src/feature.tsx:126 | gain, loss and no change of the rate follow delta30; with 30+ values it is delta30·7/30 |
| WeightFeature.RangeAttained | packages/feature-weight/src/feature.tsx:124-125 | min7 and max7 are among the last seven values |
| WeightFeature.ShortSeriesDeltas | packages/feature-weight/src/feature.tsx:121-123 | with fewer than k values, delta_k is measured from the first value |
| WeightFeature.SteadyRange | packages/feature-weight/src/feature.tsx:124-125 | a constant series has min7 = max7 = the constant |
| WeightFeature.SteadyInsights | packages/feature-weight/src/feature.tsx:118-135 | a constant series has zero deltas, zero rate, and min = max = the constant |
| WeightFeature.MeasurementInsights | packages/feature-weight/src/feature.tsx:118-119 | none exactly when there are no measurements |
| WeightFeature.NewestFirst | packages/feature-weight/src/feature.tsx:90-108 | descending by time, a permutation of the table |
| WeightFeature.ReverseMultiset | packages/feature-weight/src/feature.tsx:91 | reversing keeps the elements |
| WeightFeature.NewMeasurement | packages/feature-weight/src/feature.tsx:97-103 | bodyweight, fresh key, now; stored kg shows back as the typed value; notes trimmed or absent |
| WeightFeature.Entered | packages/feature-weight/src/feature.tsx:95-96 | `!numericValue` fails: a parsed, non-zero value; `AddMeasurement` is a no-op otherwise |
| WeightFeature.WeightHome.constructor | packages/feature-weight/src/feature.tsx:86-88 | empty log and empty fields |
| WeightFeature.WeightHome.SetValue | packages/feature-weight/src/feature.tsx:145 | the weight field holds the typed text |
| WeightFeature.WeightHome.SetNotes | packages/feature-weight/src/feature.tsx:153 | the notes field holds the typed text |
| WeightFeature.WeightHome.Load | packages/feature-weight/src/feature.tsx:90-92 | the log is the table, newest first |
| WeightFeature.WeightHome.AddMeasurement | packages/feature-weight/src/feature.tsx:94-108 | no-op for 0 or unparseable; else one measurement appended, fields cleared, log reloaded |
| WeightFeature.AddMeasurementRecord | packages/feature-weight/src/feature.tsx:104 | exactly one measurement is added, and keys stay distinct |
| WeightFeature.GoalShown | packages/feature-weight/src/feature.tsx:187-191 | blank iff no goal or 0; otherwise a value that stores back as the goal |
| WeightFeature.WithGoal | packages/feature-weight/src/feature.tsx:192-198 | an empty field clears the goal; nothing but the goal changes |
| WeightFeature.GoalRoundTrip | packages/feature-weight/src/feature.tsx:187-198 | the field shows back what was typed, except 0, which shows blank |
| GymContracts.SafeParse | packages/feature-gym/src/contracts.ts:3-20 | succeeds iff the payload is valid, with the payload itself |
| GymContracts.ValidConcat | packages/feature-gym/src/contracts.ts:16-17 | validity of the exercise list splits over concatenation, both ways |
| GymContracts.SchemaExamples | packages/feature-gym/src/contracts.ts:3-20 | boundary values: fractional reps, negative weight, RPE above 10, an empty name and effort 0 are rejected; empty lists accepted |
| GymVolume.SetsVolumeAppend | packages/feature-gym/src/utils/volume.ts:4-6 | a set list's volume is additive over concatenation |
| GymVolume.VolumeAppend | packages/feature-gym/src/utils/volume.ts:3-10 | volume is additive over concatenated exercise lists |
| GymVolume.NoSetsNoVolume | packages/feature-gym/src/utils/volume.ts:3-10 | no exercises, or none with sets, weigh 0 |
| GymVolume.AddSetVolume | packages/feature-gym/src/utils/volume.ts:5-6 | each set adds exactly reps × weightKg; none is excluded |
| GymVolume.SetsVolumeNonNegative | packages/feature-gym/src/utils/volume.ts:5-6 | valid sets have volume >= 0 |
| GymVolume.ValidVolumeNonNegative | packages/feature-gym/src/utils/volume.ts:3-10 | a payload the schema accepts has volume >= 0 |
| GymVolume.VolumeExample | packages/feature-gym/src/utils/volume.ts:3-10 | 2 × (5 × 100) + 8 × 60 = 1480 |
| GymEntryForm.CanSubmit | packages/feature-gym/src/components/GymEntryForm.tsx:41 | some draft has a name that is not blank; `PayloadNonEmptyIffCanSubmit` ties it to the payload |
| GymEntryForm.CreateSetDraft | packages/feature-gym/src/components/GymEntryForm.tsx:22-28 | every field empty, not a drop set |
| GymEntryForm.CreateExerciseDraft | packages/feature-gym/src/components/GymEntryForm.tsx:30-33 | no name and one empty set draft |
| GymEntryForm.MergeExercise | packages/feature-gym/src/components/GymEntryForm.tsx:45 | `{ ...exercise, ...updates }`: each given field replaces the draft's; `UpdateExercise` applies it |
| GymEntryForm.MergeSet | packages/feature-gym/src/components/GymEntryForm.tsx:55 | `{ ...set, ...updates }`: each given field replaces the set's; `UpdateSetOf` applies it |
| GymEntryForm.KeepSet | packages/feature-gym/src/components/GymEntryForm.tsx:78 | reps, a weight or non-blank notes; `KeptSets` and `RpeOnlySetDropped` use it |
| GymEntryForm.BuildPayload | packages/feature-gym/src/components/GymEntryForm.tsx:74-89 | the submitted exercises and the two optional numbers; `PayloadExercisesNamed` states its contents |
| GymEntryForm.KeptSets | packages/feature-gym/src/components/GymEntryForm.tsx:78 | a set is kept iff it has reps, a weight or non-blank notes; order kept |
| GymEntryForm.SubmitSet | packages/feature-gym/src/components/GymEntryForm.tsx:79-85 | empty reps/weight give 0; empty rpe absent; drop set false absent; blank notes absent |
| GymEntryForm.SubmitExercise | packages/feature-gym/src/components/GymEntryForm.tsx:75-86 | trimmed name; the kept sets, converted, in order |
| GymEntryForm.Named | packages/feature-gym/src/components/GymEntryForm.tsx:87 | an exercise is kept iff its name is non-empty; order kept |
| GymEntryForm.SubmitExercises | packages/feature-gym/src/components/GymEntryForm.tsx:74-87 | the submitted exercises: converted, then unnamed ones dropped |
| GymEntryForm.OptionalNumber | packages/feature-gym/src/components/GymEntryForm.tsx:88-89 | an empty field is absent; else `Number(text)` |
| GymEntryForm.NamedNonEmpty | packages/feature-gym/src/components/GymEntryForm.tsx:87 | some exercise survives iff some has a non-empty name |
| GymEntryForm.PayloadNonEmptyIffCanSubmit | packages/feature-gym/src/components/GymEntryForm.tsx:41-87 | the payload has an exercise iff `canSubmit` held |
| GymEntryForm.PayloadExercisesNamed | packages/feature-gym/src/components/GymEntryForm.tsx:74-87 | every submitted exercise comes from a draft, by its trimmed non-empty name |
| GymEntryForm.RpeOnlySetDropped | packages/feature-gym/src/components/GymEntryForm.tsx:78 | a set with only an RPE is dropped |
| GymEntryForm.SubmitSetDefaults | packages/feature-gym/src/components/GymEntryForm.tsx:79-85 | a filled set with empty optional fields submits absent rpe, drop set and notes |
| GymEntryForm.AddExerciseSubmitsSame | packages/feature-gym/src/components/GymEntryForm.tsx:61-89 | adding an empty exercise draft does not change the payload |
| GymEntryForm.AddSetSubmitsSame | packages/feature-gym/src/components/GymEntryForm.tsx:63-78 | adding an empty set does not change the submitted exercise |
| GymEntryForm.UpdateSetOf | packages/feature-gym/src/components/GymEntryForm.tsx:53-56 | only set j is merged with the updates |
| GymEntryForm.GymEntryFormState.constructor | packages/feature-gym/src/components/GymEntryForm.tsx:36-39 | one empty exercise draft, empty fields, no error |
| GymEntryForm.GymEntryFormState.UpdateExercise | packages/feature-gym/src/components/GymEntryForm.tsx:43-47 | only exercise i changes, merged with the updates; length kept |
| GymEntryForm.GymEntryFormState.UpdateSet | packages/feature-gym/src/components/GymEntryForm.tsx:49-59 | only set j of exercise i changes |
| GymEntryForm.GymEntryFormState.SetDurationText | packages/feature-gym/src/components/GymEntryForm.tsx:170 | the duration field holds the typed text |
| GymEntryForm.GymEntryFormState.SetEffortText | packages/feature-gym/src/components/GymEntryForm.tsx:178 | the effort field holds the typed text |
| GymEntryForm.GymEntryFormState.AddExercise | packages/feature-gym/src/components/GymEntryForm.tsx:61 | one empty draft appended |
| GymEntryForm.GymEntryFormState.AddSet | packages/feature-gym/src/components/GymEntryForm.tsx:63-70 | one empty set appended to exercise i only |
| GymEntryForm.GymEntryFormState.HandleSubmit | packages/feature-gym/src/components/GymEntryForm.tsx:72-100 | invalid: error set, nothing submitted; valid: error cleared, payload submitted, non-empty when `canSubmit` held |
| GymEntryForm.GymEntryFormState.Deliver | packages/feature-gym/src/components/GymEntryForm.tsx:92-99 | `safeParse`, then the error or `onSubmit` |
| GymContracts.ValidSet | packages/feature-gym/src/contracts.ts:3-9 | `GymSetSchema` as a predicate; its boundaries are exercised by `SchemaExamples` |
| GymContracts.ValidExercise | packages/feature-gym/src/contracts.ts:11-14 | `GymExerciseSchema` as a predicate |
| GymContracts.ValidPayload | packages/feature-gym/src/contracts.ts:16-20 | `GymPayloadSchema` as a predicate; `SafeParse` and `ValidConcat` state its properties |
| GymVolume.SetsVolume | packages/feature-gym/src/utils/volume.ts:5-7 | the inner `reduce`; its properties are `SetsVolumeAppend`, `AddSetVolume`, `SetsVolumeNonNegative` |
| GymVolume.ExercisesVolume | packages/feature-gym/src/utils/volume.ts:4-9 | the outer `reduce`; its properties are `VolumeAppend`, `NoSetsNoVolume` |
| GymVolume.CalculateVolume | packages/feature-gym/src/utils/volume.ts:3-10 | `calculateVolume`; `ValidVolumeNonNegative` and `VolumeExample` state its properties |
| SrcGym.SetTotal | src/utils/volume.ts:5-7 | the inner `reduce`; `SetTotalAgrees` ties it to the feature package |
| SrcGym.ExerciseTotal | src/utils/volume.ts:4-9 | the outer `reduce`; `ExerciseTotalAgrees` ties it to the feature package |
| SrcGym.CalculateWorkoutVolume | src/utils/volume.ts:3-10 | `calculateWorkoutVolume`; `VolumesAgree` and `WorkoutVolumeAppend` state its properties |
| SrcGym.ToGymSet | src/utils/volume.ts:6 | the same set in the feature package's shape |
| SrcGym.ToGymPayload | src/utils/volume.ts:3-10 | the same workout in the feature package's shape (no version field) |
| SrcGym.ToGymSets | src/utils/volume.ts:3-10 | the same sets as feature-package sets |
| SrcGym.ToGymExercises | src/utils/volume.ts:3-10 | the same exercises as feature-package exercises |
| SrcGym.SetTotalAgrees | src/utils/volume.ts:4-6 | the inner sums of both plugins agree |
| SrcGym.ExerciseTotalAgrees | src/utils/volume.ts:3-10 | the outer sums of both plugins agree |
| SrcGym.VolumesAgree | src/utils/volume.ts:3-10 | `calculateWorkoutVolume` equals the feature package's `calculateVolume` |
| SrcGym.WorkoutVolumeAppend | src/utils/volume.ts:3-10 | additive over concatenated exercise lists |
| SrcGym.EmptyVolumes | src/utils/volume.ts:4-9 | no exercises weigh 0; an exercise without sets adds 0 |
| SrcGymEntryForm.InitialExercises | src/components/GymEntryForm.tsx:23-25 | the value's exercises when non-empty, else one empty exercise; never empty |
| SrcGymEntryForm.EmptySet | src/components/GymEntryForm.tsx:5-11 | reps and weight 0, no RPE, not a drop set, empty notes |
| SrcGymEntryForm.EmptyExercise | src/components/GymEntryForm.tsx:13-16 | no name and one empty set |
| SrcGymEntryForm.ApplyEdit | src/components/GymEntryForm.tsx:117-189 | one input's write: exactly the edited field takes the value; `EditSetOf` applies it |
| SrcGymEntryForm.WithEmptySet | src/components/GymEntryForm.tsx:46-51 | the `handleAddSet` updater: one empty set appended |
| SrcGymEntryForm.SubmitSet | src/components/GymEntryForm.tsx:61-67 | a set as submitted, notes trimmed or absent; `SubmitSets` states it per set |
| SrcGymEntryForm.EditSetOf | src/components/GymEntryForm.tsx:117-189 | a set editor changes only set j, in one field |
| SrcGymEntryForm.SubmitNotes | src/components/GymEntryForm.tsx:66 | absent iff absent or blank; else trimmed |
| SrcGymEntryForm.SubmitSets | src/components/GymEntryForm.tsx:61-67 | every set, in order, only the notes trimmed |
| SrcGymEntryForm.SubmitExercise | src/components/GymEntryForm.tsx:59-68 | trimmed name and every set |
| SrcGymEntryForm.BuildPayload | src/components/GymEntryForm.tsx:57-71 | one exercise per draft, in order; version, duration and effort as held |
| SrcGymEntryForm.SubmitNotesIdempotent | src/components/GymEntryForm.tsx:66 | normalising notes twice equals once |
| SrcGymEntryForm.SubmitSetsIdempotent | src/components/GymEntryForm.tsx:61-67 | normalising sets twice equals once |
| SrcGymEntryForm.SubmitExerciseIdempotent | src/components/GymEntryForm.tsx:59-68 | normalising an exercise twice equals once |
| SrcGymEntryForm.SubmitIdempotent | src/components/GymEntryForm.tsx:57-71 | building a payload from a submitted payload's exercises gives it back |
| SrcGymEntryForm.SubmitKeepsSetTotal | src/components/GymEntryForm.tsx:61-67 | trimming notes keeps a set list's volume |
| SrcGymEntryForm.SubmitKeepsVolume | src/components/GymEntryForm.tsx:57-71 | the submitted payload has the drafts' volume |
| SrcGymEntryForm.EmptyEntriesWeighNothing | src/components/GymEntryForm.tsx:5-51 | an added exercise or set adds no volume |
| SrcGymEntryForm.SrcGymEntryFormState.constructor | src/components/GymEntryForm.tsx:23-32 | initial exercises, duration and effort from the value; no error |
| SrcGymEntryForm.SrcGymEntryFormState.UpdateExercise | src/components/GymEntryForm.tsx:34-40 | only index i replaced, by the updater applied to it; length kept |
| SrcGymEntryForm.SrcGymEntryFormState.AddExercise | src/components/GymEntryForm.tsx:42-44 | one empty exercise appended |
| SrcGymEntryForm.SrcGymEntryFormState.AddSet | src/components/GymEntryForm.tsx:46-51 | one empty set appended to exercise i only |
| SrcGymEntryForm.SrcGymEntryFormState.RenameExercise | src/components/GymEntryForm.tsx:94-99 | only exercise i's name changes |
| SrcGymEntryForm.SrcGymEntryFormState.SetDuration | src/components/GymEntryForm.tsx:215-218 | the duration becomes the entered value or absent |
| SrcGymEntryForm.SrcGymEntryFormState.SetEffort | src/components/GymEntryForm.tsx:228-231 | the effort becomes the entered value or absent |
| SrcGymEntryForm.SrcGymEntryFormState.EditSet | src/components/GymEntryForm.tsx:117-189 | only set j of exercise i changes, in the edited field |
| SrcGymEntryForm.SrcGymEntryFormState.HandleSubmit | src/components/GymEntryForm.tsx:53-80 | error cleared first; invalid: error set, nothing submitted; valid: the payload submitted |
| Text.TrimStart | packages/feature-gym/src/feature.tsx:507 | the longest suffix not starting with whitespace |
| Text.TrimEnd | packages/feature-gym/src/feature.tsx:507 | the longest prefix not ending with whitespace |
| Text.Trim | packages/feature-gym/src/feature.tsx:507 | the result is `s` with a whitespace-only prefix and suffix removed; empty iff all whitespace, otherwise framed by non-whitespace |
| Text.TrimmedOrAbsent | packages/feature-weight/src/feature.tsx:102 | absent iff blank; else the trimmed text |
| Text.TrimIdempotent | packages/feature-gym/src/feature.tsx:508 | trimming twice equals trimming once |
| Text.Join | packages/core/src/utils/csv.ts:24-28 | no parts join to ""; one part joins to itself |
| Text.JoinLength | packages/core/src/utils/csv.ts:24-28 | a join is as long as its parts plus one separator between each two neighbours |
| Text.JoinSnoc | packages/core/src/utils/csv.ts:24-28 | joining one more part appends the separator and that part |

## Left out

- Rendering, styles, charts, the rest-timer overlay's markup, the bottom navigation and the add-to-home-screen prompt are display only.
- `useReloadable`'s liveness flags, `setInterval` scheduling and the order of asynchronous steps are not modelled. The interval body is the step function `GymFeature.IntervalStep`.
- Dexie itself is not modelled: tables are in-memory sequences. The order of the rows a `where(...).toArray()` query returns is an input, taken as table order.
- A duplicate key is rejected by Dexie at run time. Here callers must supply a fresh key (`requires`) instead.
- `triggerCsvDownload` (Blob and DOM download) is I/O.
- `crypto.randomUUID`, `Date`, `toLocaleString` and ISO timestamps are replaced by parameters: fresh keys and integer milliseconds.
- `Number(text)` is a parameter, so its treatment of odd text is outside the model:
  - `num` in the feature entry form;
  - `parsed` in the weight feature.
  IEEE-754 `NaN` and `Infinity` are not modelled. The unparseable case of the weight field is `None`.
- Weights, volumes, averages and rates are exact reals; IEEE-754 rounding is not modelled. `toFixed` in the goal field and the insight card is display formatting. `GoalShown` returns the unrounded value.
- The plugin's schema module `src/contracts.ts` is not part of this model. So `SrcGymEntryForm.SrcGymEntryFormState.HandleSubmit` takes the schema check as the parameter `valid`, and `payloadVersion` as a parameter. The `src/` payload type is the shape the form builds.
- Zod's `safeParse` returns its input unchanged here. The schemas have no transforms, and unknown keys cannot arise in these payloads.
- WeightFeature.SmoothTrend: a window below 1 is excluded by `requires`. The source only ever uses 3; with 0 it would divide by zero (`NaN`).
- `WeightFeature.ChronologicalOrder` and `WeightFeature.NewestFirst` order equal timestamps in one fixed way. JavaScript's sort does the same, but Dexie's reverse index order among equal timestamps is unknown.
- GymFeature.WorkoutDetail.CompleteSet sets a running state without a start time, as the source does. It therefore stays outside the `RestTimer.Inv` invariant, which only holds for states the rest-timer functions build. The page's own per-second updater drives it.
- GymFeature.ApplyUpdate: `Number(event.target.value)` of an edited reps or weight field is the given number. An empty field, which `Number` turns into 0, is that number too.
- Registry.RUN: `@app/feature-run` is not among the modelled sources. Its order (3) and routes are taken from templates/feature-run/src/feature.tsx, which the run feature is built from.
- The `init` hook of the feature contract is absent: no registered feature defines one.
- Text.Trim removes ASCII whitespace plus NBSP and BOM. The other Unicode space separators that JavaScript's `trim` also removes are not included.
- The workout page's title and notes edits (`workouts.update`) and its selection fields, and the exercise library's other form fields, are plain field assignments. Only the handlers that write to the store are modelled.
- Widgets, entry cards, the "more" feature's settings form, placeholder features and build configuration are outside this model.

## Findings

| source | as written | input that shows it | evidently intended | confidence | as-written member | corrected member |
|---|---|---|---|---|---|---|
| packages/core/src/utils/restTimer.ts:28-36 | `tick` deducts all seconds since `lastStartedAt` from the already reduced remaining time and keeps `lastStartedAt`, so seconds are counted again at every tick | a 10 s timer started at 0 and ticked at 1000 and 2000 shows 7 s left after 2 s | each second deducted once (move the anchor forward, or deduct from the remaining time at start) | not executed | RestTimer.TickOverlapCounterexample | RestTimer.TickAnchoredComposes |
| packages/feature-gym/src/feature.tsx:529-543 | each template entry's sets are attached to the first workout entry with the same exercise | a template with the same exercise twice, one planned set each: the first workout entry gets two sets with index 0, the second gets none | each template entry's sets go on the workout entry created from it, indexed 0..n-1 | not executed | GymFeature.DuplicateExerciseCounterexample | GymFeature.CorrectedSetsDense |
| packages/feature-gym/src/feature.tsx:638 | the exercise page's records are computed over every set in the store | an exercise never trained, next to another exercise's 5 × 100 set: its page shows that set as its best | records over the sets of this exercise's entries only | not executed | GymFeature.RecordsCounterexample | GymFeature.ExerciseRecords |

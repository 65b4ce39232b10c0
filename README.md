# CirquloFit gamification core, modelled in Dafny

CirquloFit is a fitness web application for programmers. Its core is a small
gamification engine: a single statistics record (level, experience points,
counts of workouts and exercises, streak, eight achievements, and the level's
name, emoji, colour and progress bar) that the application changes through six
operations and rebuilds at start-up from the remote statistics endpoint or a
locally saved snapshot. Around it sit a ten-level table keyed by completed
workouts, a catalogue of workouts unlocked level by level, and a form that
builds a custom workout from an editable list of exercises.

The model has five modules:

- `Wrappers` (`wrappers.dfy`): the `Option` type used for `T | null`.
- `Levels` (`levels.dfy`): the ten-level table, the lookups by level (with the
  fallback to level 1 and the absent next level), and the clamped progress
  percentage.
- `Gamification` (`gamification.dfy`): the achievement catalogue, the fresh
  and reset states, each React state updater `prev => next` as a pure
  function, the two start-up rebuilds, an operation sequence `Run` for
  properties across many calls, and the class `Engine`, whose `stats` field the
  methods update in the order the provider applies the updaters.
- `Evolution` (`evolution.dfy`): the catalogue of 28 workouts keyed by level,
  the lookup with its fallback, and the loop that gathers every workout up to
  a level, as a method proved against a recursive specification.
- `Draft` (`draft.dfy`): the create-workout form as a class with the workout
  name, the exercise list and the "creating" flag; adding, removing and
  editing exercises; the two validation rules, with JavaScript's `trim`
  written out; the summary estimates.

Numbers are Dafny integers; the progress percentage is a `real`. Every count
the application only increments is a `nat`. Experience and award amounts are
`int`, because `addXP` accepts any amount. The clock (`new Date()`,
`Date.now()`) is an argument. Two behaviours of the code worth noting:

- Rebuilding from the remote statistics unlocks only `first_workout` (when
  at least one workout is on record). `workout_10` stays locked even with
  twelve workouts, until the next achievement check
  (`Gamification.RemoteRestoreLocksWorkout10`).
- `addXP` does not reject a negative amount, so experience only grows when
  the awards are non-negative (`Gamification.RunXPGrows`,
  `Gamification.NegativeAwardLowersXP`).

## Model

| member | source | states |
|---|---|---|
| Levels.LevelTableWellFormed | src/utils/levelSystem.ts:13-104 | the table lists levels 1 to 10 in order; level 1 needs 0 sessions; each threshold is the previous one plus its step; the thresholds strictly increase; the last step is 0 |
| Levels.StepPositive | src/utils/levelSystem.ts:13-104 | below level 10, the gap between consecutive thresholds equals the lower level's step and is positive |
| Levels.Find | src/utils/levelSystem.ts:107 | `Array.find` by level: None exactly when no entry has that level; otherwise the first entry with that level |
| Levels.FindFirst | src/utils/levelSystem.ts:107 | the search returns the entry at the first index holding the level |
| Levels.FindInTable | src/utils/levelSystem.ts:106-112 | in the level table, the search for levels 1 to 10 finds entry `level - 1` and finds nothing otherwise |
| Levels.GetLevelInfo | src/utils/levelSystem.ts:106-108 | the result is a table entry; for levels 1 to 10 it has that level, otherwise it is level 1 |
| Levels.GetLevelInfoIsFind | src/utils/levelSystem.ts:106-108 | the direct lookup equals the search with the level-1 fallback |
| Levels.GetNextLevelInfo | src/utils/levelSystem.ts:110-113 | None exactly when `level + 1` is outside 1 to 10; otherwise the table entry of level `level + 1` |
| Levels.GetNextLevelInfoIsFind | src/utils/levelSystem.ts:110-113 | the direct lookup equals the search for `level + 1` |
| Levels.ClampedPercent | src/utils/levelSystem.ts:124 | the result lies in 0 to 100, and for progress between 0 and the total it is exactly `progress / totalNeeded * 100` |
| Levels.ClampedPercentEndpoints | src/utils/levelSystem.ts:124 | the percentage is 0 exactly when progress is at most 0, and 100 exactly when progress reaches the total |
| Levels.ClampedPercentMonotone | src/utils/levelSystem.ts:124 | more progress never gives a smaller percentage |
| Levels.GetLevelProgress | src/utils/levelSystem.ts:115-125 | the result lies in 0 to 100; it is 100 at level 10 and above and below level 1; at levels 1 to 9 it is the clamped share of the step to the next threshold |
| Levels.ProgressEndpoints | src/utils/levelSystem.ts:115-125 | at levels 1 to 9, progress is 0 exactly when the sessions are at most the level's threshold, and 100 exactly when they reach the next threshold |
| Levels.ProgressMonotone | src/utils/levelSystem.ts:115-125 | at a fixed level, more sessions never lower the progress |
| Gamification.InitialStats | src/contexts/GamificationContext.tsx:103-119 | the fresh state: level 1, 0 points, 100 to the next level, zero counts, every achievement locked, progress 0, level 1 displayed |
| Gamification.ResetState | src/contexts/GamificationContext.tsx:294-309 | the reset record uses the achievement catalogue as declared |
| Gamification.ResetIsInitial | src/contexts/GamificationContext.tsx:294-309 | the reset record equals the fresh state, because every declared achievement is already locked |
| Gamification.CalculateXPToNext | src/contexts/GamificationContext.tsx:195-197 | the result is the first experience total of the next level: one point less is still the given level |
| Gamification.CalculateLevel | src/contexts/GamificationContext.tsx:191-193 | the level is the unique `l` with `(l - 1) * 100 <= xp < l * 100` |
| Gamification.AfterAddXP | src/contexts/GamificationContext.tsx:199-212 | points grow by the amount; the level brackets the new total; points plus distance equal `level * 100`; the distance lies in 1 to 100; nothing else changes |
| Gamification.WorkoutLevel | src/contexts/GamificationContext.tsx:217 | the workout level is the unique `l` with `(l - 1) * 5 <= workouts < l * 5` |
| Gamification.WorkoutUpdate | src/contexts/GamificationContext.tsx:215-230 | one more workout; level from the workout count; progress and display from the level table; points, distance, exercises, streak and achievements unchanged |
| Gamification.ExerciseCountUpdate | src/contexts/GamificationContext.tsx:236-239 | one more exercise; nothing accumulated falls; every other field unchanged |
| Gamification.StreakUpdate | src/contexts/GamificationContext.tsx:244-247 | one more day of streak; nothing accumulated falls; every other field unchanged |
| Gamification.UnlockCondition | src/contexts/GamificationContext.tsx:258-274 | only the five wired achievements can ever qualify |
| Gamification.ConditionMonotone | src/contexts/GamificationContext.tsx:258-274 | a condition that holds keeps holding when workouts, streak and level grow |
| Gamification.Evaluate | src/contexts/GamificationContext.tsx:253-285 | an unlocked achievement is kept as is; a locked one becomes unlocked exactly when its condition holds, stamped `now`; its identity fields never change |
| Gamification.AfterCheckAchievements | src/contexts/GamificationContext.tsx:251-292 | same achievements in the same order; each unlocked exactly when it was or its condition holds; newly unlocked ones stamped `now`; each entry is its own re-evaluation, so name, description and icon are kept; the rest of the record unchanged |
| Gamification.CheckAchievementsIdempotent | src/contexts/GamificationContext.tsx:251-292 | a second check, at any moment, changes nothing |
| Gamification.AfterCompleteWorkout | src/contexts/GamificationContext.tsx:214-233 | one more workout, the workout level and its table display, and no points awarded; the result is the achievement check applied to the workout updater's record |
| Gamification.AfterCompleteExercise | src/contexts/GamificationContext.tsx:235-241 | one more exercise and exactly 10 more points through the points updater, nothing else |
| Gamification.AfterUpdateStreak | src/contexts/GamificationContext.tsx:243-249 | the streak grows by one and the achievements are checked against the new streak |
| Gamification.FromApi | src/contexts/GamificationContext.tsx:143-163 | the remote figures copied verbatim, distance fixed at 100, the display of the remote level, and only `first_workout` unlocked, without a timestamp, when a workout is on record; every other field of each achievement (name, description, icon) is the catalogue's |
| Gamification.RemoteRestoreLocksWorkout10 | src/contexts/GamificationContext.tsx:143-163 | twelve remote workouts come back with `workout_10` locked; the next check unlocks it |
| Gamification.OrOne | src/contexts/GamificationContext.tsx:130 | `level \|\| 1` never yields 0 |
| Gamification.FromCache | src/contexts/GamificationContext.tsx:128-139 | every saved field kept; progress recomputed from the saved workouts and level and within 0 to 100; the display of that level |
| Gamification.CacheRoundTrip | src/contexts/GamificationContext.tsx:128-139 | a snapshot whose derived fields are current reloads unchanged; any reload yields current derived fields; reloading twice is reloading once |
| Gamification.CompleteWorkoutConsistent | src/contexts/GamificationContext.tsx:214-233 | after a workout the derived fields are current, whatever they were |
| Gamification.InitialConsistent | src/contexts/GamificationContext.tsx:103-119 | the fresh state has current derived fields and reloads unchanged |
| Gamification.AddXPLeavesDisplayStale | src/contexts/GamificationContext.tsx:199-212 | 100 points from a fresh state give level 2 still shown as level 1; a reload then changes the display |
| Gamification.ThresholdsAboveWorkoutPace | src/contexts/GamificationContext.tsx:217 | from level 3 to 9 the table's threshold is at least five workouts per level |
| Gamification.WorkoutProgressAgainstTable | src/contexts/GamificationContext.tsx:214-230 | with the workout level, progress is 0 from the 10th to the 44th workout and 100 from the 45th; from the 50th the level is past the table and level 1 is shown |
| Gamification.Apply | src/contexts/GamificationContext.tsx:199-312 | every operation but a reset keeps counts and streak from falling and unlocked achievements unchanged; a reset gives the fresh state |
| Gamification.RunGrows | src/contexts/GamificationContext.tsx:199-292 | across any operations without a reset, counts and streak never fall and unlocked achievements stay as they are |
| Gamification.RunXPGrows | src/contexts/GamificationContext.tsx:199-212 | across operations without a reset and with non-negative awards, points never fall |
| Gamification.NegativeAwardLowersXP | src/contexts/GamificationContext.tsx:199-212 | a negative award lowers the points |
| Gamification.RepeatedXP | src/contexts/GamificationContext.tsx:199-212 | `n` awards add `n * amount` points and leave the formula's level and distance |
| Gamification.TenAwardsOfTen | src/contexts/GamificationContext.tsx:199-212 | ten awards of 10 from a fresh state: 100 points, level 2, 100 to go |
| Gamification.RepeatedWorkouts | src/contexts/GamificationContext.tsx:214-292 | after `n` workouts from a fresh state: `n` workouts, level `n / 5 + 1`, and each achievement unlocked exactly when its condition holds |
| Gamification.WorkoutMilestones | src/contexts/GamificationContext.tsx:214-292 | after `n` workouts from a fresh state: level `n / 5 + 1`; `first_workout` unlocked exactly from the first; `workout_10` exactly from the tenth |
| Gamification.WorkoutLevelOverridesXPLevel | src/contexts/GamificationContext.tsx:191-233 | 500 points give level 6, and one workout then sets the level back to 1 |
| Gamification.WorkoutLevelMissesLevel5 | src/contexts/GamificationContext.tsx:199-292 | a check after 500 points unlocks `level_5`; a workout instead first lowers the level, so its check does not |
| Gamification.Engine.constructor | src/contexts/GamificationContext.tsx:103-119 | the engine starts in the fresh state |
| Gamification.Engine.Load | src/contexts/GamificationContext.tsx:121-189 | without a token the saved snapshot, if any, is loaded (otherwise the state is kept); with one, the remote statistics; when the request fails, the snapshot the save effect has meanwhile written from the in-memory state, so a consistent state such as the fresh one comes back unchanged and no earlier session is restored |
| Gamification.Engine.AddXP | src/contexts/GamificationContext.tsx:199-212 | the state after the points updater |
| Gamification.Engine.CompleteWorkout | src/contexts/GamificationContext.tsx:214-233 | the state after the workout updater and the check; one more workout and current derived fields |
| Gamification.Engine.CompleteExercise | src/contexts/GamificationContext.tsx:235-241 | the state after the exercise counter and a 10-point award |
| Gamification.Engine.UpdateStreak | src/contexts/GamificationContext.tsx:243-249 | the state after the streak counter and the check |
| Gamification.Engine.CheckAchievements | src/contexts/GamificationContext.tsx:251-292 | the state after the check; nothing accumulated is lost |
| Gamification.Engine.ResetStats | src/contexts/GamificationContext.tsx:294-312 | the fresh state |
| Evolution.CatalogLevels | src/utils/workoutEvolution.ts:14-315 | the keys are exactly levels 1 to 10, and every workout stored under a key has that key as its level |
| Evolution.CatalogIds | src/utils/workoutEvolution.ts:14-315 | every stored id spells its level and its 1-based position in that level's list |
| Evolution.CatalogUnique | src/utils/workoutEvolution.ts:14-315 | no two stored workouts share an id |
| Evolution.GetWorkoutsForLevel | src/utils/workoutEvolution.ts:317-319 | a non-empty list: the level's own for levels 1 to 10, level 1's otherwise; every entry has the level it was looked up for, or 1 |
| Evolution.AllAvailable | src/utils/workoutEvolution.ts:321-329 | empty below level 1; every entry's level lies between 1 and the requested level |
| Evolution.GetAllAvailableWorkouts | src/utils/workoutEvolution.ts:321-329 | the loop's result is the lookups for levels 1 up to the level, joined in ascending order |
| Evolution.AvailablePrefix | src/utils/workoutEvolution.ts:324-326 | the list for a level is a prefix of the list for any higher level |
| Evolution.AvailableStep | src/utils/workoutEvolution.ts:324-326 | each level adds its own list at the end, and its size to the length |
| Evolution.AvailableAtTop | src/utils/workoutEvolution.ts:321-329 | level 10 offers all 28 catalogue workouts |
| Evolution.AvailableFirst | src/utils/workoutEvolution.ts:321-329 | from level 1 on, the list starts with `1-1` and `1-2` |
| Evolution.AvailableBeyondTop | src/utils/workoutEvolution.ts:317-329 | each level past 10 adds two entries, `1-1` and `1-2` again |
| Evolution.AvailableUnique | src/utils/workoutEvolution.ts:317-329 | the ids offered are unique exactly when the level is at most 10 |
| Draft.NewExercise | src/app/dashboard/create-workout/page.tsx:33-39 | a new row has the given id, no name, 3 sets of 12 repetitions and no weight |
| Draft.Without | src/app/dashboard/create-workout/page.tsx:45 | keeps exactly the rows whose id differs, never grows the list, and is the identity when the id is absent |
| Draft.WithoutAppend | src/app/dashboard/create-workout/page.tsx:45 | the filter distributes over concatenation, so kept rows keep their order |
| Draft.WithoutUniqueLength | src/app/dashboard/create-workout/page.tsx:43-47 | with unique ids, removing a present id drops exactly one row and an absent id none |
| Draft.WithoutKeepsUnique | src/app/dashboard/create-workout/page.tsx:43-47 | the filter keeps ids unique |
| Draft.RemovalNeedsUniqueIds | src/app/dashboard/create-workout/page.tsx:43-47 | two rows sharing one id pass the guard and are both removed, emptying the list |
| Draft.ApplyField | src/app/dashboard/create-workout/page.tsx:51 | the edit changes exactly the named field |
| Draft.Updated | src/app/dashboard/create-workout/page.tsx:49-53 | same length and order; rows with another id untouched; matching rows edited; ids kept unless the id itself is edited |
| Draft.UpdatedIdempotent | src/app/dashboard/create-workout/page.tsx:49-53 | the same edit twice is the edit once |
| Draft.UpdatedThenWithout | src/app/dashboard/create-workout/page.tsx:43-53 | an edit that keeps ids does not change which rows a removal of that id leaves |
| Draft.TrimStart | src/app/dashboard/create-workout/page.tsx:56 | a suffix without leading white space; what it drops is all white space |
| Draft.TrimEnd | src/app/dashboard/create-workout/page.tsx:56 | a prefix without trailing white space; what it drops is all white space |
| Draft.Trim | src/app/dashboard/create-workout/page.tsx:56 | a contiguous piece of the string that neither starts nor ends with white space, with only white space cut off on either side |
| Draft.TrimEmpty | src/app/dashboard/create-workout/page.tsx:56-65 | the trimmed string is empty exactly when the string is all white space |
| Draft.Validate | src/app/dashboard/create-workout/page.tsx:55-72 | a blank name is rejected first; otherwise any blank exercise name is rejected; otherwise the workout is created |
| Draft.FreshDraftIsIncomplete | src/app/dashboard/create-workout/page.tsx:28-72 | a named workout with the initial exercise row is rejected as incomplete |
| Draft.EstimatedMinutes | src/app/dashboard/create-workout/page.tsx:235 | nothing for an empty list, and each further exercise adds ten minutes |
| Draft.EstimatedXP | src/app/dashboard/create-workout/page.tsx:245 | nothing for an empty list, and each further exercise adds ten points |
| Draft.EstimateMatchesAwards | src/app/dashboard/create-workout/page.tsx:245 | issuing the engine's `completeExercise` once per exercise adds exactly the estimated points through that operation's own 10-point award, and one exercise each to the count |
| Draft.WorkoutDraft.constructor | src/app/dashboard/create-workout/page.tsx:25-30 | an empty form with the single row id `1`; not creating |
| Draft.WorkoutDraft.AddExercise | src/app/dashboard/create-workout/page.tsx:32-41 | one blank row appended, the rest unchanged; both estimates rise by 10; unique ids stay unique when the new id is fresh |
| Draft.WorkoutDraft.RemoveExercise | src/app/dashboard/create-workout/page.tsx:43-47 | no change with a single row; otherwise the filter; a non-empty list with unique ids stays so, and loses one row, and 10 from each estimate, when the id is present |
| Draft.WorkoutDraft.UpdateExercise | src/app/dashboard/create-workout/page.tsx:49-53 | the list after the edit; a non-empty list with unique ids stays so unless the id field is edited |
| Draft.WorkoutDraft.HandleCreateWorkout | src/app/dashboard/create-workout/page.tsx:55-74 | the outcome of the validation; the creating flag is set exactly on success; the form is otherwise unchanged |

## Left out

- Writing the snapshot to local storage after every change, removing it on reset, and reading it back with `JSON.parse`: the saved snapshot is an argument of `Engine.Load`, already parsed into the statistics record. The write is modelled only where it matters: the load effect pauses at its first `await` (src/contexts/GamificationContext.tsx:144), the save effect (:186-189) then stores the in-memory state, and so the fallback after a failed request (:167-178) reads that state back, never the previous session's snapshot.
- The HTTP request for the remote statistics, and the session token: `Engine.Load` takes whether a token exists and the response or its failure.
- React batching: each operation applies its updaters one after another to the latest state, as React does with functional updaters; rendering, notifications, navigation and the two-second simulated creation after the creating flag is set are not modelled.
- Parsing the number inputs with `parseInt(...) || 0`: field edits take the parsed integer.
- The form's description field is carried but never validated, as in the application.
- Levels.GetLevelProgress: level 0 is excluded; the application would divide by zero there, and its callers never pass 0 (they pass `level || 1` or a workout level of at least 1).
- Fractional or non-finite numbers in levels, counts, points and amounts are not modelled; all of them are integers here.
- `longestStreak` and `achievementsUnlocked` of the remote statistics are read but unused, as in the application.
- The workout session page (src/app/dashboard/workout/[id]/page.tsx) is not part of this model. It awards 10 points on starting, 5 for each set but the last of an exercise, 15 per finished exercise on top of `completeExercise`, and 100 per finished workout, so `Draft.EstimateMatchesAwards` speaks only of `completeExercise`'s award; the points a real session earns exceed the form's estimate.

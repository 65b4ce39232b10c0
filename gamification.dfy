/**
 * The gamification engine: one `UserStats` record that the application changes
 * through six operations (award experience, complete a workout, complete an
 * exercise, extend the streak, re-evaluate achievements, reset), plus the two
 * ways it is rebuilt at start-up (from the remote statistics endpoint, or from a
 * locally saved snapshot).
 *
 * Each state change of the application is a functional updater `prev => next`; each
 * is a pure function here. The class `Engine` at the end holds the mutable
 * `stats` and applies the updaters in the order the provider issues them.
 */
module Gamification {
  import opened Wrappers
  import opened Levels

  /** The moment an achievement is unlocked (the application reads the wall clock). */
  type Timestamp = int

  datatype Achievement = Achievement(
    id: string,
    name: string,
    description: string,
    icon: string,
    unlocked: bool,
    unlockedAt: Option<Timestamp>)

  const FirstWorkout: string := "first_workout"
  const Streak7: string := "streak_7"
  const Level5: string := "level_5"
  const Workout10: string := "workout_10"
  const Streak30: string := "streak_30"

  /** The achievement catalogue, all locked. */
  const Achievements: seq<Achievement> := [
    Achievement(FirstWorkout, "Primeiro Passo", "Saiu do sedentarismo - primeiro treino!", "🚀", false, None),
    Achievement(Streak7, "Consistência", "7 dias seguidos de atividade física", "🔥", false, None),
    Achievement(Level5, "Determinado", "Alcance o nível 5 - fôlego melhorando!", "⭐", false, None),
    Achievement(Workout10, "Dedicado", "10 treinos completados - massa magra crescendo!", "💪", false, None),
    Achievement(Streak30, "Mestre", "30 dias de transformação - novo estilo de vida!", "👑", false, None),
    Achievement("cardio_master", "Fôlego de Ferro", "Complete 5 treinos de cardio", "🏃‍♂️", false, None),
    Achievement("strength_builder", "Construtor", "Complete 5 treinos de força", "🏋️‍♂️", false, None),
    Achievement("posture_improver", "Postura Perfeita", "Complete 3 treinos de mobilidade", "🧘‍♂️", false, None)
  ]

  /** Catalogue entries the engine has a condition for; the other three are never unlocked. */
  const WiredIds: set<string> := {FirstWorkout, Streak7, Level5, Workout10, Streak30}

  datatype UserStats = UserStats(
    level: int,
    xp: int,
    xpToNextLevel: int,
    totalWorkouts: nat,
    totalExercises: nat,
    streak: nat,
    achievements: seq<Achievement>,
    levelProgress: real,
    levelName: string,
    levelDescription: string,
    levelEmoji: string,
    levelColor: string)

  /** The record `s` with its four display fields taken from the level entry `info`. */
  function WithDisplay(s: UserStats, info: LevelInfo): (r: UserStats)
  {
    s.(levelName := info.name, levelDescription := info.description,
       levelEmoji := info.emoji, levelColor := info.color)
  }

  /** The display fields of `s` are those of `info`. */
  predicate ShowsLevel(s: UserStats, info: LevelInfo)
  {
    s.levelName == info.name && s.levelDescription == info.description &&
    s.levelEmoji == info.emoji && s.levelColor == info.color
  }

  /** The achievements of `s` are the catalogue's, in order, all locked and never stamped. */
  predicate AllLocked(s: UserStats)
  {
    |s.achievements| == |Achievements| &&
    forall i :: 0 <= i < |Achievements| ==>
      s.achievements[i].id == Achievements[i].id && !s.achievements[i].unlocked &&
      s.achievements[i].unlockedAt == None
  }

  /** The state the engine starts from: level 1, nothing earned, every achievement locked. */
  function InitialStats(): (s: UserStats)
    ensures s.level == 1 && s.xp == 0 && s.xpToNextLevel == 100
    ensures s.totalWorkouts == 0 && s.totalExercises == 0 && s.streak == 0
    ensures AllLocked(s) && s.levelProgress == 0.0
    ensures ShowsLevel(s, LevelSystem[0])
  {
    var levelInfo := GetLevelInfo(1);
    UserStats(1, 0, 100, 0, 0, 0,
      seq(|Achievements|, i requires 0 <= i < |Achievements| => Achievements[i].(unlocked := false)),
      0.0, levelInfo.name, levelInfo.description, levelInfo.emoji, levelInfo.color)
  }

  /** The state `resetStats` installs: the catalogue itself rather than an unlocked-false copy of it. */
  function ResetState(): (s: UserStats)
    ensures AllLocked(s) && s.achievements == Achievements
  {
    var levelInfo := GetLevelInfo(1);
    UserStats(1, 0, 100, 0, 0, 0, Achievements,
      0.0, levelInfo.name, levelInfo.description, levelInfo.emoji, levelInfo.color)
  }

  /** Resetting yields exactly the state of a fresh start. */
  lemma ResetIsInitial()
    ensures ResetState() == InitialStats()
  {
    var a := InitialStats().achievements;
    assert |a| == |Achievements|;
    forall i | 0 <= i < |a|
      ensures a[i] == Achievements[i]
    {
    }
  }

  /** Level from experience: one level per 100 points, starting at 1. */
  function CalculateLevel(xp: int): (level: int)
    ensures (level - 1) * 100 <= xp < level * 100
  {
    xp / 100 + 1
  }

  /** The first experience total of the level after `level`: the threshold `addXP` measures the distance to. */
  function CalculateXPToNext(level: int): (r: int)
    ensures CalculateLevel(r) == level + 1
    ensures CalculateLevel(r - 1) == level
  {
    level * 100
  }

  /**
   * The `addXP` updater: only xp, level and xpToNextLevel change; the level
   * display fields and levelProgress are left as they were.
   */
  function AfterAddXP(prev: UserStats, amount: int): (next: UserStats)
    ensures next.xp == prev.xp + amount
    ensures (next.level - 1) * 100 <= next.xp < next.level * 100
    ensures next.xp + next.xpToNextLevel == next.level * 100
    ensures 1 <= next.xpToNextLevel <= 100
    ensures next == prev.(xp := next.xp, level := next.level, xpToNextLevel := next.xpToNextLevel)
  {
    var newXP := prev.xp + amount;
    var newLevel := CalculateLevel(newXP);
    var xpToNext := CalculateXPToNext(newLevel) - newXP;
    prev.(xp := newXP, level := newLevel, xpToNextLevel := xpToNext)
  }

  /** Level from completed workouts: one level per 5 workouts, starting at 1. */
  function WorkoutLevel(totalWorkouts: int): (level: int)
    ensures (level - 1) * 5 <= totalWorkouts < level * 5
  {
    totalWorkouts / 5 + 1
  }

  /**
   * The `completeWorkout` updater: one more workout, the level recomputed from
   * the workout count, progress and display fields taken from the level table.
   */
  function WorkoutUpdate(prev: UserStats): (next: UserStats)
    ensures next.totalWorkouts == prev.totalWorkouts + 1
    ensures next.level >= 1 && (next.level - 1) * 5 <= next.totalWorkouts < next.level * 5
    ensures next.levelProgress == GetLevelProgress(next.totalWorkouts, next.level)
    ensures ShowsLevel(next, GetLevelInfo(next.level))
    ensures next.xp == prev.xp && next.xpToNextLevel == prev.xpToNextLevel
    ensures next.totalExercises == prev.totalExercises && next.streak == prev.streak
    ensures next.achievements == prev.achievements
  {
    var newTotalWorkouts := prev.totalWorkouts + 1;
    var newLevel := WorkoutLevel(newTotalWorkouts);
    var levelInfo := GetLevelInfo(newLevel);
    WithDisplay(
      prev.(totalWorkouts := newTotalWorkouts, level := newLevel,
            levelProgress := GetLevelProgress(newTotalWorkouts, newLevel)),
      levelInfo)
  }

  /** The counter updater of `completeExercise`: one more exercise, nothing else. */
  function ExerciseCountUpdate(prev: UserStats): (next: UserStats)
    ensures next.totalExercises == prev.totalExercises + 1
    ensures Grows(prev, next)
    ensures next == prev.(totalExercises := next.totalExercises)
  {
    prev.(totalExercises := prev.totalExercises + 1)
  }

  /** The counter updater of `updateStreak`: one more day of streak, nothing else. */
  function StreakUpdate(prev: UserStats): (next: UserStats)
    ensures next.streak == prev.streak + 1
    ensures Grows(prev, next)
    ensures next == prev.(streak := next.streak)
  {
    prev.(streak := prev.streak + 1)
  }

  /** The unlock condition of the achievement `id`, judged on `s`; false for ids without one. */
  function UnlockCondition(id: string, s: UserStats): (r: bool)
    ensures r ==> id in WiredIds
  {
    if id == FirstWorkout then s.totalWorkouts >= 1
    else if id == Streak7 then s.streak >= 7
    else if id == Level5 then s.level >= 5
    else if id == Workout10 then s.totalWorkouts >= 10
    else if id == Streak30 then s.streak >= 30
    else false
  }

  /** One achievement re-evaluated against `s`: unlocking is one-way and stamps `now` once. */
  function Evaluate(a: Achievement, s: UserStats, now: Timestamp): (r: Achievement)
    ensures r.id == a.id && r.name == a.name && r.description == a.description && r.icon == a.icon
    ensures r.unlocked <==> a.unlocked || UnlockCondition(a.id, s)
    ensures a.unlocked ==> r == a
    ensures !a.unlocked && r.unlocked ==> r.unlockedAt == Some(now)
    ensures !r.unlocked ==> r == a
  {
    if a.unlocked then a
    else if UnlockCondition(a.id, s) then a.(unlocked := true, unlockedAt := Some(now))
    else a
  }

  /**
   * The `checkAchievements` updater: the list keeps its length, order and ids;
   * an unlocked entry stays exactly as it was; a locked one unlocks, stamped
   * `now`, exactly when its condition holds; nothing outside the list changes.
   */
  function AfterCheckAchievements(prev: UserStats, now: Timestamp): (next: UserStats)
    ensures |next.achievements| == |prev.achievements|
    ensures forall i :: 0 <= i < |prev.achievements| ==>
      next.achievements[i].id == prev.achievements[i].id &&
      (next.achievements[i].unlocked <==>
         prev.achievements[i].unlocked || UnlockCondition(prev.achievements[i].id, prev)) &&
      (prev.achievements[i].unlocked ==> next.achievements[i] == prev.achievements[i]) &&
      (!next.achievements[i].unlocked ==> next.achievements[i] == prev.achievements[i]) &&
      (!prev.achievements[i].unlocked && next.achievements[i].unlocked ==>
         next.achievements[i].unlockedAt == Some(now))
    ensures forall i :: 0 <= i < |prev.achievements| ==>
      next.achievements[i] == Evaluate(prev.achievements[i], prev, now)
    ensures next == prev.(achievements := next.achievements)
  {
    var updated := seq(|prev.achievements|, i requires 0 <= i < |prev.achievements| =>
      Evaluate(prev.achievements[i], prev, now));
    prev.(achievements := updated)
  }

  /** Re-evaluating achievements a second time, at any moment, changes nothing. */
  lemma CheckAchievementsIdempotent(s: UserStats, t1: Timestamp, t2: Timestamp)
    ensures AfterCheckAchievements(AfterCheckAchievements(s, t1), t2) == AfterCheckAchievements(s, t1)
  {
    var once := AfterCheckAchievements(s, t1);
    var twice := AfterCheckAchievements(once, t2);
    forall i | 0 <= i < |once.achievements|
      ensures twice.achievements[i] == once.achievements[i]
    {
      var a := s.achievements[i];
      if !once.achievements[i].unlocked {
        assert !UnlockCondition(a.id, s);
        assert UnlockCondition(a.id, once) == UnlockCondition(a.id, s);
      }
    }
  }

  /** `completeWorkout`: the workout updater, then the achievement updater. */
  function AfterCompleteWorkout(prev: UserStats, now: Timestamp): (next: UserStats)
    ensures next.totalWorkouts == prev.totalWorkouts + 1
    ensures next.level == WorkoutLevel(next.totalWorkouts)
    ensures next.levelProgress == GetLevelProgress(next.totalWorkouts, next.level)
    ensures ShowsLevel(next, GetLevelInfo(next.level))
    ensures next.xp == prev.xp && next.xpToNextLevel == prev.xpToNextLevel
    ensures next.totalExercises == prev.totalExercises && next.streak == prev.streak
    ensures next == AfterCheckAchievements(WorkoutUpdate(prev), now)
  {
    AfterCheckAchievements(WorkoutUpdate(prev), now)
  }

  /** `completeExercise`: one more exercise, then exactly 10 experience points through `addXP`. */
  function AfterCompleteExercise(prev: UserStats): (next: UserStats)
    ensures next.totalExercises == prev.totalExercises + 1
    ensures next.xp == prev.xp + 10
    ensures next.level == CalculateLevel(next.xp)
    ensures 1 <= next.xpToNextLevel <= 100
    ensures next == prev.(totalExercises := next.totalExercises, xp := next.xp,
                          level := next.level, xpToNextLevel := next.xpToNextLevel)
  {
    AfterAddXP(ExerciseCountUpdate(prev), 10)
  }

  /** `updateStreak`: the streak grows by one, then achievements are re-evaluated against it. */
  function AfterUpdateStreak(prev: UserStats, now: Timestamp): (next: UserStats)
    ensures next.streak == prev.streak + 1
    ensures next == AfterCheckAchievements(prev.(streak := next.streak), now)
  {
    AfterCheckAchievements(StreakUpdate(prev), now)
  }

  /** The statistics served by the remote endpoint, as the client reads them. */
  datatype ApiStats = ApiStats(
    totalWorkouts: nat,
    totalExercises: nat,
    totalXp: int,
    currentStreak: nat,
    longestStreak: nat,
    level: int,
    levelProgress: real,
    achievementsUnlocked: nat)

  /**
   * Rebuilding the state from the remote statistics: counts, level and progress
   * are copied verbatim, xpToNextLevel is fixed at 100, and of the achievements
   * only `first_workout` can come back unlocked (with no timestamp), when at
   * least one workout is on record.
   */
  function FromApi(api: ApiStats): (s: UserStats)
    ensures s.level == api.level && s.xp == api.totalXp && s.xpToNextLevel == 100
    ensures s.totalWorkouts == api.totalWorkouts && s.totalExercises == api.totalExercises
    ensures s.streak == api.currentStreak && s.levelProgress == api.levelProgress
    ensures ShowsLevel(s, GetLevelInfo(api.level))
    ensures |s.achievements| == |Achievements|
    ensures forall i :: 0 <= i < |Achievements| ==>
      s.achievements[i].id == Achievements[i].id && s.achievements[i].unlockedAt == None &&
      (s.achievements[i].unlocked <==> Achievements[i].id == FirstWorkout && api.totalWorkouts > 0)
    ensures forall i :: 0 <= i < |Achievements| ==>
      s.achievements[i] == Achievements[i].(unlocked := s.achievements[i].unlocked)
  {
    var levelInfo := GetLevelInfo(api.level);
    UserStats(api.level, api.totalXp, 100, api.totalWorkouts, api.totalExercises, api.currentStreak,
      seq(|Achievements|, i requires 0 <= i < |Achievements| =>
        Achievements[i].(unlocked := Achievements[i].id == FirstWorkout && api.totalWorkouts > 0)),
      api.levelProgress, levelInfo.name, levelInfo.description, levelInfo.emoji, levelInfo.color)
  }

  /** A remote record with twelve workouts restores `workout_10` locked; the next evaluation unlocks it. */
  lemma RemoteRestoreLocksWorkout10(now: Timestamp)
    ensures var s := FromApi(ApiStats(12, 40, 250, 2, 2, 3, 40.0, 2));
      s.achievements[0].unlocked && !s.achievements[3].unlocked &&
      AfterCheckAchievements(s, now).achievements[3].unlocked
  {
    var s := FromApi(ApiStats(12, 40, 250, 2, 2, 3, 40.0, 2));
    assert Achievements[3].id == Workout10 != FirstWorkout;
    assert s.achievements[3].id == Workout10;
  }

  /** JavaScript `level || 1` on a number: 0 is replaced by 1. */
  function OrOne(level: int): (r: int)
    ensures r != 0
  {
    if level == 0 then 1 else level
  }

  /**
   * Rebuilding the state from a saved snapshot: every persisted field is kept
   * (achievements with their timestamps included), while levelProgress and the
   * display fields are recomputed from the level table.
   */
  function FromCache(saved: UserStats): (s: UserStats)
    ensures s.levelProgress == GetLevelProgress(saved.totalWorkouts, OrOne(saved.level))
    ensures 0.0 <= s.levelProgress <= 100.0
    ensures ShowsLevel(s, GetLevelInfo(OrOne(saved.level)))
    ensures s.(levelProgress := saved.levelProgress, levelName := saved.levelName,
               levelDescription := saved.levelDescription, levelEmoji := saved.levelEmoji,
               levelColor := saved.levelColor) == saved
  {
    var levelInfo := GetLevelInfo(OrOne(saved.level));
    WithDisplay(saved.(levelProgress := GetLevelProgress(saved.totalWorkouts, OrOne(saved.level))), levelInfo)
  }

  /** The derived fields of `s` agree with its level and workout count. */
  predicate Consistent(s: UserStats)
  {
    s.level != 0 &&
    s.levelProgress == GetLevelProgress(s.totalWorkouts, s.level) &&
    ShowsLevel(s, GetLevelInfo(s.level))
  }

  /** A snapshot whose derived fields are up to date reloads unchanged; any snapshot reloads to such a state. */
  lemma CacheRoundTrip(saved: UserStats)
    ensures Consistent(saved) ==> FromCache(saved) == saved
    ensures saved.level != 0 ==> Consistent(FromCache(saved))
    ensures FromCache(FromCache(saved)) == FromCache(saved)
  {
  }

  /** Completing a workout leaves the derived fields up to date, whatever they were. */
  lemma CompleteWorkoutConsistent(prev: UserStats, now: Timestamp)
    ensures Consistent(AfterCompleteWorkout(prev, now))
  {
  }

  /** The fresh state is consistent, so a fresh state saved and reloaded is unchanged. */
  lemma InitialConsistent()
    ensures Consistent(InitialStats())
    ensures FromCache(InitialStats()) == InitialStats()
  {
    ProgressEndpoints(0, 1);
  }

  /**
   * `addXP` moves the level without refreshing the display or the progress:
   * 100 points from the fresh state show level 2 with level 1's name, and a
   * reload of that snapshot changes what is shown.
   */
  lemma AddXPLeavesDisplayStale()
    ensures var s := AfterAddXP(InitialStats(), 100);
      s.level == 2 && ShowsLevel(s, LevelSystem[0]) && !Consistent(s) &&
      FromCache(s) != s && ShowsLevel(FromCache(s), LevelSystem[1])
  {
    var s := AfterAddXP(InitialStats(), 100);
    assert LevelSystem[0].name != LevelSystem[1].name;
  }

  /** The workout thresholds of the level table lie at or above the five-workouts-per-level pace. */
  lemma ThresholdsAboveWorkoutPace(l: int)
    requires 3 <= l < MaxLevel
    ensures Required(l) >= 5 * l
  {
  }

  /**
   * With the five-workouts-per-level formula, the table's progress bar stays at
   * 0 from the 10th to the 44th workout, is full from the 45th, and from the
   * 50th the level is past the table, so level 1's name is shown.
   */
  lemma WorkoutProgressAgainstTable(prev: UserStats)
    ensures var next := WorkoutUpdate(prev);
      (10 <= next.totalWorkouts < 45 ==> next.levelProgress == 0.0) &&
      (next.totalWorkouts >= 45 ==> next.levelProgress == 100.0) &&
      (next.totalWorkouts >= 50 ==> next.level > MaxLevel && ShowsLevel(next, LevelSystem[0]))
  {
    var next := WorkoutUpdate(prev);
    if 10 <= next.totalWorkouts < 45 {
      ThresholdsAboveWorkoutPace(next.level);
      ProgressEndpoints(next.totalWorkouts, next.level);
    }
  }

  /** The engine's operations, as a caller issues them; the clock reading is an argument. */
  datatype Op =
    | AddXPOp(amount: int)
    | CompleteWorkoutOp(at: Timestamp)
    | CompleteExerciseOp
    | UpdateStreakOp(at: Timestamp)
    | CheckAchievementsOp(at: Timestamp)
    | ResetStatsOp

  /** Nothing that only accumulates went backwards from `s` to `t`, and no unlocked achievement changed. */
  predicate Grows(s: UserStats, t: UserStats)
  {
    t.totalWorkouts >= s.totalWorkouts && t.totalExercises >= s.totalExercises && t.streak >= s.streak &&
    |t.achievements| == |s.achievements| &&
    forall i :: 0 <= i < |s.achievements| ==>
      t.achievements[i].id == s.achievements[i].id &&
      (s.achievements[i].unlocked ==> t.achievements[i] == s.achievements[i])
  }

  /** The state after one operation; every operation but a reset only accumulates. */
  function Apply(s: UserStats, op: Op): (r: UserStats)
    ensures !op.ResetStatsOp? ==> Grows(s, r)
    ensures op.ResetStatsOp? ==> r == InitialStats()
  {
    match op
    case AddXPOp(amount) => AfterAddXP(s, amount)
    case CompleteWorkoutOp(at) => AfterCompleteWorkout(s, at)
    case CompleteExerciseOp => AfterCompleteExercise(s)
    case UpdateStreakOp(at) => AfterUpdateStreak(s, at)
    case CheckAchievementsOp(at) => AfterCheckAchievements(s, at)
    case ResetStatsOp => ResetIsInitial(); ResetState()
  }

  /** The state after the operations `ops`, in order. */
  function Run(s: UserStats, ops: seq<Op>): (r: UserStats)
    decreases |ops|
  {
    if ops == [] then s else Run(Apply(s, ops[0]), ops[1..])
  }

  predicate NoReset(ops: seq<Op>)
  {
    forall i :: 0 <= i < |ops| ==> !ops[i].ResetStatsOp?
  }

  /**
   * Across any sequence of operations without a reset, workouts, exercises and
   * streak never decrease, and an unlocked achievement keeps its place, id and
   * timestamp.
   */
  lemma {:induction false} RunGrows(s: UserStats, ops: seq<Op>)
    requires NoReset(ops)
    ensures Grows(s, Run(s, ops))
    decreases |ops|
  {
    if ops != [] {
      var s1 := Apply(s, ops[0]);
      assert NoReset(ops[1..]) by {
        forall i | 0 <= i < |ops| - 1 ensures !ops[1..][i].ResetStatsOp? {
          assert ops[1..][i] == ops[i + 1];
        }
      }
      RunGrows(s1, ops[1..]);
    }
  }

  /** Every award in `ops` is of a non-negative amount. */
  predicate NonNegativeAwards(ops: seq<Op>)
  {
    forall i :: 0 <= i < |ops| && ops[i].AddXPOp? ==> ops[i].amount >= 0
  }

  /**
   * Experience only grows across operations without a reset, provided no
   * award is negative; `addXP` itself accepts any amount, so one negative
   * award takes points away.
   */
  lemma {:induction false} RunXPGrows(s: UserStats, ops: seq<Op>)
    requires NoReset(ops) && NonNegativeAwards(ops)
    ensures Run(s, ops).xp >= s.xp
    decreases |ops|
  {
    if ops != [] {
      var s1 := Apply(s, ops[0]);
      assert s1.xp >= s.xp;
      assert NoReset(ops[1..]) && NonNegativeAwards(ops[1..]) by {
        forall i | 0 <= i < |ops| - 1
          ensures !ops[1..][i].ResetStatsOp? && (ops[1..][i].AddXPOp? ==> ops[1..][i].amount >= 0)
        {
          assert ops[1..][i] == ops[i + 1];
        }
      }
      RunXPGrows(s1, ops[1..]);
    }
  }

  /** A negative award is applied as given. */
  lemma NegativeAwardLowersXP(s: UserStats, amount: int)
    requires amount < 0
    ensures Run(s, [AddXPOp(amount)]).xp < s.xp
  {
    assert [AddXPOp(amount)][1..] == [];
  }

  /** Running `ops` then one more operation is applying it to the result. */
  lemma {:induction false} RunSnoc(s: UserStats, ops: seq<Op>, op: Op)
    ensures Run(s, ops + [op]) == Apply(Run(s, ops), op)
    decreases |ops|
  {
    if ops == [] {
      assert ops + [op] == [op];
      assert [op][1..] == [];
    } else {
      assert (ops + [op])[0] == ops[0];
      assert (ops + [op])[1..] == ops[1..] + [op];
      RunSnoc(Apply(s, ops[0]), ops[1..], op);
    }
  }

  function Repeat(op: Op, n: nat): (ops: seq<Op>)
    ensures |ops| == n && forall i :: 0 <= i < n ==> ops[i] == op
  {
    seq(n, _ => op)
  }

  /** `n` awards of `amount` add `n * amount` points and leave the level and distance the formula gives. */
  lemma {:induction false} RepeatedXP(s: UserStats, amount: int, n: nat)
    ensures var r := Run(s, Repeat(AddXPOp(amount), n));
      r.xp == s.xp + n * amount &&
      (n > 0 ==> r.level == CalculateLevel(r.xp) && r.xpToNextLevel == r.level * 100 - r.xp)
  {
    var op := AddXPOp(amount);
    if n == 0 {
      assert Repeat(op, 0) == [];
    } else {
      RepeatedXP(s, amount, n - 1);
      var p := Run(s, Repeat(op, n - 1));
      assert Repeat(op, n) == Repeat(op, n - 1) + [op];
      RunSnoc(s, Repeat(op, n - 1), op);
      var r := AfterAddXP(p, amount);
      assert Run(s, Repeat(op, n)) == r;
      assert p.xp == s.xp + (n - 1) * amount;
      assert (n - 1) * amount + amount == n * amount;
      assert r.level == CalculateLevel(r.xp);
    }
  }

  /** Ten awards of 10 points from a fresh state: 100 points, level 2, 100 to go. */
  lemma TenAwardsOfTen()
    ensures var r := Run(InitialStats(), Repeat(AddXPOp(10), 10));
      r.xp == 100 && r.level == 2 && r.xpToNextLevel == 100
  {
    var s := InitialStats();
    RepeatedXP(s, 10, 10);
    assert s.xp + 10 * 10 == 100;
    assert CalculateLevel(100) == 2;
  }

  /** Each unlock condition only becomes easier as workouts, streak and level grow. */
  lemma ConditionMonotone(id: string, s: UserStats, t: UserStats)
    requires s.totalWorkouts <= t.totalWorkouts && s.streak <= t.streak && s.level <= t.level
    ensures UnlockCondition(id, s) ==> UnlockCondition(id, t)
  {
  }

  /** `r` is what `n` completed workouts from a fresh state leave. */
  predicate WorkoutTally(r: UserStats, n: nat)
  {
    r.totalWorkouts == n && r.level == n / 5 + 1 && r.streak == 0 &&
    |r.achievements| == |Achievements| &&
    forall i :: 0 <= i < |Achievements| ==>
      r.achievements[i].id == Achievements[i].id &&
      (r.achievements[i].unlocked <==> UnlockCondition(Achievements[i].id, r))
  }

  /** One more workout moves the tally from `n` to `n + 1`. */
  lemma WorkoutTallyStep(p: UserStats, n: nat, now: Timestamp)
    requires WorkoutTally(p, n)
    ensures WorkoutTally(AfterCompleteWorkout(p, now), n + 1)
  {
    var w := WorkoutUpdate(p);
    var r := AfterCheckAchievements(w, now);
    forall i | 0 <= i < |Achievements|
      ensures r.achievements[i].unlocked <==> UnlockCondition(Achievements[i].id, r)
    {
      ConditionMonotone(Achievements[i].id, p, w);
      assert UnlockCondition(Achievements[i].id, r) == UnlockCondition(Achievements[i].id, w);
    }
  }

  /** A fresh state is the tally of no workouts. */
  lemma WorkoutTallyInitial()
    ensures WorkoutTally(InitialStats(), 0)
  {
    var s := InitialStats();
    forall i | 0 <= i < |Achievements|
      ensures !UnlockCondition(Achievements[i].id, s)
    {
    }
  }

  /**
   * After `n` completed workouts from a fresh state: `n` workouts, level
   * `n / 5 + 1`, and each achievement unlocked exactly when its condition holds.
   */
  lemma {:induction false} RepeatedWorkouts(n: nat, now: Timestamp)
    ensures WorkoutTally(Run(InitialStats(), Repeat(CompleteWorkoutOp(now), n)), n)
  {
    var op := CompleteWorkoutOp(now);
    if n == 0 {
      assert Repeat(op, 0) == [];
      WorkoutTallyInitial();
    } else {
      RepeatedWorkouts(n - 1, now);
      assert Repeat(op, n) == Repeat(op, n - 1) + [op];
      RunSnoc(InitialStats(), Repeat(op, n - 1), op);
      WorkoutTallyStep(Run(InitialStats(), Repeat(op, n - 1)), n - 1, now);
    }
  }

  /** After `n` workouts from a fresh state, `first_workout` is unlocked exactly when `n >= 1`. */
  lemma TallyFirstWorkout(r: UserStats, n: nat)
    requires WorkoutTally(r, n)
    ensures r.achievements[0].unlocked <==> n >= 1
  {
    assert Achievements[0].id == FirstWorkout;
  }

  /** After `n` workouts from a fresh state, `workout_10` is unlocked exactly when `n >= 10`. */
  lemma TallyWorkout10(r: UserStats, n: nat)
    requires WorkoutTally(r, n)
    ensures r.achievements[3].unlocked <==> n >= 10
  {
    assert Achievements[3].id == Workout10;
  }

  /**
   * `n` completed workouts from a fresh state: level `n / 5 + 1`,
   * `first_workout` unlocked from the first workout on and `workout_10`
   * from the tenth on (so five workouts reach level 2 without it).
   */
  lemma WorkoutMilestones(n: nat, now: Timestamp)
    ensures var r := Run(InitialStats(), Repeat(CompleteWorkoutOp(now), n));
      r.totalWorkouts == n && r.level == n / 5 + 1 && |r.achievements| == |Achievements| &&
      (r.achievements[0].unlocked <==> n >= 1) &&
      (r.achievements[3].unlocked <==> n >= 10)
  {
    var r := Run(InitialStats(), Repeat(CompleteWorkoutOp(now), n));
    RepeatedWorkouts(n, now);
    TallyFirstWorkout(r, n);
    TallyWorkout10(r, n);
  }

  /** 500 points put the engine at level 6; the next workout recomputes the level as 1. */
  lemma WorkoutLevelOverridesXPLevel(now: Timestamp)
    ensures AfterAddXP(InitialStats(), 500).level == 6
    ensures AfterCompleteWorkout(AfterAddXP(InitialStats(), 500), now).level == 1
  {
  }

  /** At level 6 by points an evaluation unlocks `level_5`, but the evaluation inside the next workout does not. */
  lemma WorkoutLevelMissesLevel5(now: Timestamp)
    ensures AfterCheckAchievements(AfterAddXP(InitialStats(), 500), now).achievements[2].unlocked
    ensures !AfterCompleteWorkout(AfterAddXP(InitialStats(), 500), now).achievements[2].unlocked
  {
    var s0 := InitialStats();
    assert s0.achievements[2].id == Level5 && !s0.achievements[2].unlocked;
  }

  /** The engine: the single mutable statistics record and the operations on it. */
  class Engine {
    var stats: UserStats

    /** The fresh state the provider starts from. */
    constructor ()
      ensures stats == InitialStats()
    {
      stats := InitialStats();
    }

    /**
     * Start-up hydration. Without a session token the saved snapshot, if any, is
     * loaded before anything else runs. With one, the remote statistics are
     * used; `remote` is None when the request failed. By then the save effect
     * has already written the in-memory state over the stored snapshot, so the
     * fallback reloads the current state rather than an earlier session's.
     */
    method Load(hasToken: bool, remote: Option<ApiStats>, saved: Option<UserStats>)
      modifies this
      ensures hasToken && remote.Some? ==> stats == FromApi(remote.value)
      ensures !hasToken && saved.Some? ==> stats == FromCache(saved.value)
      ensures !hasToken && saved.None? ==> stats == old(stats)
      ensures hasToken && remote.None? ==> stats == FromCache(old(stats))
      ensures hasToken && remote.None? && Consistent(old(stats)) ==> stats == old(stats)
    {
      if !hasToken {
        if saved.Some? {
          stats := FromCache(saved.value);
        }
        return;
      }
      match remote
      case Some(api) =>
        stats := FromApi(api);
      case None =>
        CacheRoundTrip(stats);
        stats := FromCache(stats);
    }

    /** `addXP`: applies the points updater. */
    method AddXP(amount: int)
      modifies this
      ensures stats == Apply(old(stats), AddXPOp(amount))
      ensures stats.xp == old(stats.xp) + amount && 1 <= stats.xpToNextLevel <= 100
    {
      stats := AfterAddXP(stats, amount);
    }

    /** `completeWorkout`: the workout updater, then the achievement check. */
    method CompleteWorkout(now: Timestamp)
      modifies this
      ensures stats == Apply(old(stats), CompleteWorkoutOp(now))
      ensures stats.totalWorkouts == old(stats.totalWorkouts) + 1 && Consistent(stats)
    {
      stats := WorkoutUpdate(stats);
      CheckAchievements(now);
    }

    /** `completeExercise`: the exercise counter, then 10 points. */
    method CompleteExercise()
      modifies this
      ensures stats == Apply(old(stats), CompleteExerciseOp)
      ensures stats.totalExercises == old(stats.totalExercises) + 1 && stats.xp == old(stats.xp) + 10
    {
      stats := ExerciseCountUpdate(stats);
      AddXP(10);
    }

    /** `updateStreak`: the streak counter, then the achievement check. */
    method UpdateStreak(now: Timestamp)
      modifies this
      ensures stats == Apply(old(stats), UpdateStreakOp(now))
      ensures stats.streak == old(stats.streak) + 1
    {
      stats := StreakUpdate(stats);
      CheckAchievements(now);
    }

    /** `checkAchievements`: unlocks, stamped `now`, every locked achievement whose condition holds. */
    method CheckAchievements(now: Timestamp)
      modifies this
      ensures stats == Apply(old(stats), CheckAchievementsOp(now))
      ensures Grows(old(stats), stats)
    {
      stats := AfterCheckAchievements(stats, now);
    }

    /** `resetStats`: back to the fresh state. */
    method ResetStats()
      modifies this
      ensures stats == Apply(old(stats), ResetStatsOp) && stats == InitialStats()
    {
      stats := ResetState();
      ResetIsInitial();
    }
  }
}

/**
 * The level table of the fitness application: ten named tiers, each with the
 * number of workout sessions needed to enter it and the number of further
 * sessions needed to reach the next one, plus the three lookups built on it.
 */
module Levels {
  import opened Wrappers

  datatype LevelInfo = LevelInfo(
    level: int,
    name: string,
    description: string,
    emoji: string,
    color: string,
    requiredSessions: int,
    nextLevelSessions: int)

  const LevelSystem: seq<LevelInfo> := [
    LevelInfo(1, "Ameba", "Saiu do sedentarismo - primeiros passos!", "🦠", "#8B5CF6", 0, 5),
    LevelInfo(2, "Tartaruga", "Movimento lento mas constante", "🐢", "#10B981", 5, 10),
    LevelInfo(3, "Coelho", "Ganhou agilidade e fôlego", "🐰", "#F59E0B", 15, 15),
    LevelInfo(4, "Cavalo", "Força e resistência em desenvolvimento", "🐴", "#EF4444", 30, 20),
    LevelInfo(5, "Leão", "Predador do sedentarismo", "🦁", "#F97316", 50, 25),
    LevelInfo(6, "Tigre", "Agilidade e força combinadas", "🐅", "#DC2626", 75, 30),
    LevelInfo(7, "Águia", "Visão de longo prazo e disciplina", "🦅", "#7C3AED", 105, 35),
    LevelInfo(8, "Dragão", "Lendário - domina o sedentarismo", "🐉", "#BE185D", 140, 40),
    LevelInfo(9, "Fênix", "Renasce mais forte a cada treino", "🔥", "#F59E0B", 180, 50),
    LevelInfo(10, "Titã", "Deus do fitness - nível máximo", "⚡", "#FBBF24", 230, 0)
  ]

  /** The highest level of the table. */
  const MaxLevel: int := 10

  /** Sessions needed to enter level `l` (for a level of the table). */
  function Required(l: int): (r: int)
    requires 1 <= l <= MaxLevel
  {
    LevelSystem[l - 1].requiredSessions
  }

  /** The table lists levels 1..10 in order; each threshold is the previous one plus its step. */
  lemma LevelTableWellFormed()
    ensures |LevelSystem| == MaxLevel
    ensures forall i :: 0 <= i < |LevelSystem| ==> LevelSystem[i].level == i + 1
    ensures LevelSystem[0].requiredSessions == 0
    ensures forall i :: 0 <= i < |LevelSystem| - 1 ==>
      LevelSystem[i].requiredSessions < LevelSystem[i + 1].requiredSessions
    ensures forall i :: 0 <= i < |LevelSystem| - 1 ==>
      LevelSystem[i + 1].requiredSessions == LevelSystem[i].requiredSessions + LevelSystem[i].nextLevelSessions
    ensures LevelSystem[MaxLevel - 1].nextLevelSessions == 0
  {
  }

  /** Array `find`: the first entry of `table` whose level is `level`, if any. */
  function Find(table: seq<LevelInfo>, level: int): (r: Option<LevelInfo>)
    ensures r.None? <==> forall i :: 0 <= i < |table| ==> table[i].level != level
    ensures r.Some? ==>
      r.value.level == level &&
      exists i :: 0 <= i < |table| && table[i] == r.value &&
        forall j :: 0 <= j < i ==> table[j].level != level
  {
    if table == [] then None
    else if table[0].level == level then Some(table[0])
    else
      var r := Find(table[1..], level);
      if r.Some? then
        var i :| 0 <= i < |table| - 1 && table[1..][i] == r.value
          && forall j :: 0 <= j < i ==> table[1..][j].level != level;
        assert table[i + 1] == r.value;
        r
      else r
  }

  /** `find` returns the first matching entry. */
  lemma {:induction false} FindFirst(table: seq<LevelInfo>, level: int, k: int)
    requires 0 <= k < |table| && table[k].level == level
    requires forall j :: 0 <= j < k ==> table[j].level != level
    ensures Find(table, level) == Some(table[k])
  {
    if k > 0 {
      assert table[1..][k - 1] == table[k];
      FindFirst(table[1..], level, k - 1);
    }
  }

  /** `find` over the level table hits exactly the levels 1..10, at index level - 1. */
  lemma FindInTable(level: int)
    ensures 1 <= level <= MaxLevel ==> Find(LevelSystem, level) == Some(LevelSystem[level - 1])
    ensures !(1 <= level <= MaxLevel) ==> Find(LevelSystem, level) == None
  {
    LevelTableWellFormed();
    if 1 <= level <= MaxLevel {
      FindFirst(LevelSystem, level, level - 1);
    }
  }

  /** The entry of `level`, or the level-1 entry when no entry matches: never fails. */
  function GetLevelInfo(level: int): (r: LevelInfo)
    ensures r in LevelSystem
    ensures 1 <= level <= MaxLevel ==> r.level == level
    ensures !(1 <= level <= MaxLevel) ==> r.level == 1
  {
    if 1 <= level <= MaxLevel then LevelSystem[level - 1] else LevelSystem[0]
  }

  /** `GetLevelInfo` is the table's `find` by level, falling back to the first entry. */
  lemma GetLevelInfoIsFind(level: int)
    ensures GetLevelInfo(level) == match Find(LevelSystem, level)
      case Some(info) => info
      case None => LevelSystem[0]
  {
    FindInTable(level);
  }

  /** The entry of the level after `currentLevel`, or none past the ends of the table. */
  function GetNextLevelInfo(currentLevel: int): (r: Option<LevelInfo>)
    ensures r.None? <==> !(1 <= currentLevel + 1 <= MaxLevel)
    ensures r.Some? ==> r.value in LevelSystem && r.value.level == currentLevel + 1
  {
    if 1 <= currentLevel + 1 <= MaxLevel then Some(LevelSystem[currentLevel]) else None
  }

  /** `GetNextLevelInfo` is the table's `find` for the following level. */
  lemma GetNextLevelInfoIsFind(currentLevel: int)
    ensures GetNextLevelInfo(currentLevel) == Find(LevelSystem, currentLevel + 1)
  {
    FindInTable(currentLevel + 1);
  }

  /** Between a level of 1..9 and its successor the threshold strictly grows by the level's step. */
  lemma StepPositive(l: int)
    requires 1 <= l < MaxLevel
    ensures LevelSystem[l].requiredSessions - LevelSystem[l - 1].requiredSessions
      == LevelSystem[l - 1].nextLevelSessions > 0
  {
    LevelTableWellFormed();
  }

  function Min(a: real, b: real): (r: real) { if a <= b then a else b }

  function Max(a: real, b: real): (r: real) { if a >= b then a else b }

  /** `progress / totalNeeded * 100`, clamped to [0, 100], computed exactly. */
  function ClampedPercent(progress: int, totalNeeded: int): (r: real)
    requires totalNeeded > 0
    ensures 0.0 <= r <= 100.0
    ensures 0 <= progress <= totalNeeded ==> r * totalNeeded as real == progress as real * 100.0
  {
    var q := progress as real / totalNeeded as real;
    assert q * totalNeeded as real == progress as real;
    Min(100.0, Max(0.0, q * 100.0))
  }

  /** The clamped percentage is 0 exactly when no progress is made and 100 exactly when the whole step is covered. */
  lemma ClampedPercentEndpoints(progress: int, totalNeeded: int)
    requires totalNeeded > 0
    ensures ClampedPercent(progress, totalNeeded) == 0.0 <==> progress <= 0
    ensures ClampedPercent(progress, totalNeeded) == 100.0 <==> progress >= totalNeeded
  {
    var q := progress as real / totalNeeded as real;
    assert q * totalNeeded as real == progress as real;
    if progress >= totalNeeded {
      assert q >= 1.0;
    } else if progress > 0 {
      assert 0.0 < q < 1.0;
    } else {
      assert q <= 0.0;
    }
  }

  /** Dividing by a positive number keeps the order. */
  lemma RatioMonotone(x1: real, x2: real, t: real)
    requires t > 0.0
    requires x1 <= x2
    ensures x1 / t <= x2 / t
  {
    var d := x2 / t - x1 / t;
    assert d * t == x2 - x1;
  }

  /** The clamped percentage never decreases as progress grows. */
  lemma ClampedPercentMonotone(p1: int, p2: int, totalNeeded: int)
    requires totalNeeded > 0
    requires p1 <= p2
    ensures ClampedPercent(p1, totalNeeded) <= ClampedPercent(p2, totalNeeded)
  {
    RatioMonotone(p1 as real, p2 as real, totalNeeded as real);
  }

  /**
   * Percentage of the way from the current level's threshold to the next one,
   * clamped to [0, 100]; 100 when there is no next level. Level 0 is excluded:
   * both lookups then resolve to level 1 and the divisor is zero.
   */
  function GetLevelProgress(totalSessions: int, currentLevel: int): (r: real)
    requires currentLevel != 0
    ensures 0.0 <= r <= 100.0
    ensures (currentLevel >= MaxLevel || currentLevel <= -1) ==> r == 100.0
    ensures 1 <= currentLevel < MaxLevel ==>
      r == ClampedPercent(totalSessions - Required(currentLevel), LevelSystem[currentLevel - 1].nextLevelSessions)
  {
    var levelInfo := GetLevelInfo(currentLevel);
    match GetNextLevelInfo(currentLevel)
    case None => 100.0
    case Some(nextLevelInfo) =>
      StepPositive(currentLevel);
      var progress := totalSessions - levelInfo.requiredSessions;
      var totalNeeded := nextLevelInfo.requiredSessions - levelInfo.requiredSessions;
      ClampedPercent(progress, totalNeeded)
  }

  /** Progress is 0 exactly up to the level's threshold and 100 exactly from the next one. */
  lemma ProgressEndpoints(totalSessions: int, currentLevel: int)
    requires 1 <= currentLevel < MaxLevel
    ensures GetLevelProgress(totalSessions, currentLevel) == 0.0 <==> totalSessions <= Required(currentLevel)
    ensures GetLevelProgress(totalSessions, currentLevel) == 100.0 <==> totalSessions >= Required(currentLevel + 1)
  {
    StepPositive(currentLevel);
    var progress, step := totalSessions - Required(currentLevel), LevelSystem[currentLevel - 1].nextLevelSessions;
    assert Required(currentLevel + 1) == Required(currentLevel) + step;
    assert GetLevelProgress(totalSessions, currentLevel) == ClampedPercent(progress, step);
    ClampedPercentEndpoints(progress, step);
  }

  /** For a level with a successor, more sessions never mean less progress. */
  lemma ProgressMonotone(s1: int, s2: int, currentLevel: int)
    requires 1 <= currentLevel < MaxLevel
    requires s1 <= s2
    ensures GetLevelProgress(s1, currentLevel) <= GetLevelProgress(s2, currentLevel)
  {
    StepPositive(currentLevel);
    var info := LevelSystem[currentLevel - 1];
    ClampedPercentMonotone(s1 - info.requiredSessions, s2 - info.requiredSessions, info.nextLevelSessions);
  }
}

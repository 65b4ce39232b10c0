/**
 * The evolutionary workout catalogue: a fixed table from level (1 to 10) to
 * the workouts introduced at that level, a lookup that falls back to level 1,
 * and the loop that gathers every workout up to the user's level.
 */
module Evolution {

  datatype Category = Cardio | Strength | Hiit | Mobility | Mixed

  datatype WorkoutData = WorkoutData(
    id: string,
    name: string,
    description: string,
    exercises: int,
    duration: int,
    xp: int,
    level: int,
    category: Category)

  /** Highest level with its own entry in the catalogue. */
  const TopLevel: int := 10

  /** The catalogue, keyed by level. */
  const EvolutionaryWorkouts: map<int, seq<WorkoutData>> := map[
    1 := [
      WorkoutData("1-1", "🦠 Primeiros Passos", "Caminhada leve para sair do sedentarismo", 3, 15, 20, 1, Cardio),
      WorkoutData("1-2", "🦠 Alongamento Básico", "Mobilidade inicial para programadores", 4, 10, 15, 1, Mobility)
    ],
    2 := [
      WorkoutData("2-1", "🐢 Caminhada Moderada", "Aumentando o ritmo gradualmente", 4, 20, 30, 2, Cardio),
      WorkoutData("2-2", "🐢 Força Básica", "Primeiros exercícios com peso", 5, 25, 35, 2, Strength)
    ],
    3 := [
      WorkoutData("3-1", "🐰 Cardio Intermediário", "Corrida leve e exercícios aeróbicos", 5, 25, 40, 3, Cardio),
      WorkoutData("3-2", "🐰 Força em Desenvolvimento", "Treino de força com mais intensidade", 6, 30, 45, 3, Strength),
      WorkoutData("3-3", "🐰 HIIT Básico", "Primeiro treino intervalado", 6, 20, 50, 3, Hiit)
    ],
    4 := [
      WorkoutData("4-1", "🐴 Cardio Avançado", "Corrida e exercícios de alta intensidade", 6, 30, 55, 4, Cardio),
      WorkoutData("4-2", "🐴 Força Sólida", "Treino de força com cargas maiores", 7, 35, 60, 4, Strength),
      WorkoutData("4-3", "🐴 HIIT Intermediário", "Treino intervalado mais intenso", 8, 25, 65, 4, Hiit)
    ],
    5 := [
      WorkoutData("5-1", "🦁 Cardio de Predador", "Exercícios de alta intensidade", 7, 35, 70, 5, Cardio),
      WorkoutData("5-2", "🦁 Força de Leão", "Treino de força avançado", 8, 40, 75, 5, Strength),
      WorkoutData("5-3", "🦁 HIIT de Leão", "Treino intervalado de alta intensidade", 9, 30, 80, 5, Hiit),
      WorkoutData("5-4", "🦁 Treino Completo", "Combinação de força e cardio", 10, 45, 90, 5, Mixed)
    ],
    6 := [
      WorkoutData("6-1", "🐅 Agilidade de Tigre", "Treino focado em agilidade e velocidade", 8, 30, 85, 6, Hiit),
      WorkoutData("6-2", "🐅 Força de Tigre", "Treino de força com complexidade", 9, 45, 90, 6, Strength),
      WorkoutData("6-3", "🐅 Resistência de Tigre", "Cardio de longa duração", 6, 50, 95, 6, Cardio)
    ],
    7 := [
      WorkoutData("7-1", "🦅 Visão de Águia", "Treino de precisão e controle", 10, 40, 100, 7, Mixed),
      WorkoutData("7-2", "🦅 Voo de Águia", "Cardio de alta altitude", 8, 45, 105, 7, Cardio),
      WorkoutData("7-3", "🦅 Garras de Águia", "Força e agilidade combinadas", 11, 50, 110, 7, Strength)
    ],
    8 := [
      WorkoutData("8-1", "🐉 Fogo de Dragão", "HIIT de intensidade máxima", 12, 35, 120, 8, Hiit),
      WorkoutData("8-2", "🐉 Escamas de Dragão", "Força lendária", 12, 55, 125, 8, Strength),
      WorkoutData("8-3", "🐉 Voo de Dragão", "Resistência sobrenatural", 10, 60, 130, 8, Cardio)
    ],
    9 := [
      WorkoutData("9-1", "🔥 Renascimento", "Treino de transformação total", 15, 60, 150, 9, Mixed),
      WorkoutData("9-2", "🔥 Chamas Eternas", "Intensidade que nunca se apaga", 14, 45, 145, 9, Hiit)
    ],
    10 := [
      WorkoutData("10-1", "⚡ Poder dos Deuses", "Treino divino - nível máximo", 20, 90, 200, 10, Mixed),
      WorkoutData("10-2", "⚡ Trovão dos Titãs", "Força sobrenatural", 18, 75, 195, 10, Strength),
      WorkoutData("10-3", "⚡ Relâmpago Divino", "Velocidade dos deuses", 16, 50, 190, 10, Hiit)
    ]
  ]

  /** The keys are exactly the levels 1 to 10, and every stored workout carries its key as level. */
  lemma CatalogLevels()
    ensures forall l :: l in EvolutionaryWorkouts <==> 1 <= l <= TopLevel
    ensures forall l, k :: l in EvolutionaryWorkouts && 0 <= k < |EvolutionaryWorkouts[l]| ==>
      EvolutionaryWorkouts[l][k].level == l
  {
  }

  /** The workouts of `level`, or those of level 1 when the table has no entry for it. */
  function GetWorkoutsForLevel(level: int): (r: seq<WorkoutData>)
    ensures r != []
    ensures 1 <= level <= TopLevel ==> r == EvolutionaryWorkouts[level]
    ensures !(1 <= level <= TopLevel) ==> r == EvolutionaryWorkouts[1]
    ensures forall i :: 0 <= i < |r| ==> r[i].level == (if 1 <= level <= TopLevel then level else 1)
  {
    CatalogLevels();
    if level in EvolutionaryWorkouts then EvolutionaryWorkouts[level] else EvolutionaryWorkouts[1]
  }

  /**
   * Every workout available at `currentLevel`: the lists of levels
   * `1 .. currentLevel` (each through the lookup above) joined in ascending order.
   */
  function AllAvailable(currentLevel: int): (r: seq<WorkoutData>)
    decreases currentLevel
    ensures currentLevel < 1 ==> r == []
    ensures forall i :: 0 <= i < |r| ==> 1 <= r[i].level <= currentLevel
  {
    if currentLevel < 1 then [] else AllAvailable(currentLevel - 1) + GetWorkoutsForLevel(currentLevel)
  }

  /** The loop that gathers the available workouts, one level at a time. */
  method GetAllAvailableWorkouts(currentLevel: int) returns (workouts: seq<WorkoutData>)
    ensures workouts == AllAvailable(currentLevel)
    ensures forall i :: 0 <= i < |workouts| ==> 1 <= workouts[i].level <= currentLevel
  {
    workouts := [];
    var level := 1;
    while level <= currentLevel
      invariant 1 <= level
      invariant level == 1 || level <= currentLevel + 1
      invariant workouts == AllAvailable(level - 1)
      decreases currentLevel - level
    {
      workouts := workouts + GetWorkoutsForLevel(level);
      level := level + 1;
    }
  }

  /** Raising the level only appends: the workouts of `c` are a prefix of those of any `d >= c`. */
  lemma {:induction false} AvailablePrefix(c: int, d: int)
    requires c <= d
    ensures |AllAvailable(c)| <= |AllAvailable(d)|
    ensures AllAvailable(c) == AllAvailable(d)[..|AllAvailable(c)|]
    decreases d - c
  {
    if c < d {
      AvailablePrefix(c, d - 1);
      if d >= 1 {
        assert AllAvailable(d) == AllAvailable(d - 1) + GetWorkoutsForLevel(d);
      }
    }
  }

  /** Each level adds the size of its own list. */
  lemma AvailableStep(c: int)
    requires c >= 1
    ensures |AllAvailable(c)| == |AllAvailable(c - 1)| + |GetWorkoutsForLevel(c)|
    ensures AllAvailable(c)[|AllAvailable(c - 1)|..] == GetWorkoutsForLevel(c)
  {
  }

  /** All 28 catalogue workouts are available at level 10. */
  lemma AvailableAtTop()
    ensures |AllAvailable(TopLevel)| == 28
  {
    assert |AllAvailable(1)| == 2;
    assert |AllAvailable(2)| == 4;
    assert |AllAvailable(3)| == 7;
    assert |AllAvailable(4)| == 10;
    assert |AllAvailable(5)| == 14;
    assert |AllAvailable(6)| == 17;
    assert |AllAvailable(7)| == 20;
    assert |AllAvailable(8)| == 23;
    assert |AllAvailable(9)| == 25;
  }

  /** Past level 10, every further level appends the two level-1 workouts again. */
  lemma {:induction false} AvailableBeyondTop(c: int)
    requires c >= TopLevel
    ensures |AllAvailable(c)| == 28 + 2 * (c - TopLevel)
    ensures forall j :: 0 <= j < c - TopLevel ==>
      AllAvailable(c)[28 + 2 * j].id == "1-1" && AllAvailable(c)[29 + 2 * j].id == "1-2"
    decreases c
  {
    if c == TopLevel {
      AvailableAtTop();
    } else {
      AvailableBeyondTop(c - 1);
      var a := AllAvailable(c - 1);
      var r := AllAvailable(c);
      assert r == a + EvolutionaryWorkouts[1];
      forall j | 0 <= j < c - TopLevel
        ensures r[28 + 2 * j].id == "1-1" && r[29 + 2 * j].id == "1-2"
      {
        if j < c - 1 - TopLevel {
          assert r[28 + 2 * j] == a[28 + 2 * j] && r[29 + 2 * j] == a[29 + 2 * j];
        } else {
          assert r[28 + 2 * j] == EvolutionaryWorkouts[1][0] && r[29 + 2 * j] == EvolutionaryWorkouts[1][1];
        }
      }
    }
  }

  function Digit(c: char): (d: int)
  {
    c as int - '0' as int
  }

  /**
   * The two numbers of an identifier written `<level>-<position>`, with a
   * level of one or two digits and a one-digit position; `(0, 0)` otherwise.
   */
  function IdKey(id: string): (key: (int, int))
  {
    if |id| == 3 && id[1] == '-' && id[0] != '0' then (Digit(id[0]), Digit(id[2]))
    else if |id| == 4 && id[2] == '-' && id[0] != '0' then (Digit(id[0]) * 10 + Digit(id[1]), Digit(id[3]))
    else (0, 0)
  }

  /** The identifiers of levels 1 to 5 spell their level and 1-based position. */
  lemma LowerLevelIds()
    ensures forall l, k :: 1 <= l <= 5 && 0 <= k < |EvolutionaryWorkouts[l]| ==>
      IdKey(EvolutionaryWorkouts[l][k].id) == (l, k + 1)
  {
  }

  /** The identifiers of levels 6 to 10 spell their level and 1-based position. */
  lemma UpperLevelIds()
    ensures forall l, k :: 6 <= l <= TopLevel && 0 <= k < |EvolutionaryWorkouts[l]| ==>
      IdKey(EvolutionaryWorkouts[l][k].id) == (l, k + 1)
  {
  }

  /** Every stored identifier spells its own level and its 1-based position in that level's list. */
  lemma CatalogIds()
    ensures forall l, k :: l in EvolutionaryWorkouts && 0 <= k < |EvolutionaryWorkouts[l]| ==>
      IdKey(EvolutionaryWorkouts[l][k].id) == (l, k + 1)
  {
    CatalogLevels();
    LowerLevelIds();
    UpperLevelIds();
  }

  /** No two workouts of `s` share an identifier. */
  predicate UniqueIds(s: seq<WorkoutData>)
  {
    forall i, j :: 0 <= i < j < |s| ==> s[i].id != s[j].id
  }

  /** Every identifier in the catalogue is unique. */
  lemma CatalogUnique()
    ensures forall l1, k1, l2, k2 ::
      l1 in EvolutionaryWorkouts && 0 <= k1 < |EvolutionaryWorkouts[l1]| &&
      l2 in EvolutionaryWorkouts && 0 <= k2 < |EvolutionaryWorkouts[l2]| &&
      EvolutionaryWorkouts[l1][k1].id == EvolutionaryWorkouts[l2][k2].id ==>
        l1 == l2 && k1 == k2
  {
    CatalogIds();
  }

  /** Every available workout's identifier spells its level. */
  lemma {:induction false} AvailableKeyed(c: int)
    ensures forall i :: 0 <= i < |AllAvailable(c)| ==> IdKey(AllAvailable(c)[i].id).0 == AllAvailable(c)[i].level
    decreases c
  {
    if c >= 1 {
      AvailableKeyed(c - 1);
      CatalogIds();
      CatalogLevels();
    }
  }

  /** From level 1 on, the list opens with the two level-1 workouts. */
  lemma AvailableFirst(c: int)
    requires c >= 1
    ensures |AllAvailable(c)| >= 2
    ensures AllAvailable(c)[0].id == "1-1" && AllAvailable(c)[1].id == "1-2"
  {
    AvailablePrefix(1, c);
    assert AllAvailable(1) == AllAvailable(0) + GetWorkoutsForLevel(1);
  }

  /** Adding a level from 1 to 10 keeps the identifiers unique. */
  lemma AvailableUniqueStep(c: int)
    requires 1 <= c <= TopLevel
    requires UniqueIds(AllAvailable(c - 1))
    ensures UniqueIds(AllAvailable(c))
  {
    AvailableKeyed(c - 1);
    CatalogIds();
    var a := AllAvailable(c - 1);
    var b := GetWorkoutsForLevel(c);
    var r := AllAvailable(c);
    assert r == a + b;
    forall i, j | 0 <= i < j < |r| && j >= |a|
      ensures r[i].id != r[j].id
    {
      assert r[j] == b[j - |a|];
      assert IdKey(r[j].id) == (c, j - |a| + 1);
      if i < |a| {
        assert IdKey(r[i].id).0 == r[i].level < c;
      } else {
        assert r[i] == b[i - |a|];
      }
    }
  }

  /** Up to level 10 no identifier is offered twice; from level 11 on `1-1` is. */
  lemma {:induction false} AvailableUnique(c: int)
    ensures UniqueIds(AllAvailable(c)) <==> c <= TopLevel
    decreases c
  {
    if c > TopLevel {
      AvailableBeyondTop(c);
      AvailableFirst(c);
      var r := AllAvailable(c);
      assert r[28 + 2 * 0].id == "1-1";
      assert r[0].id == r[28].id;
    } else if c >= 1 {
      AvailableUnique(c - 1);
      AvailableUniqueStep(c);
    }
  }
}

/**
 * The workout-creation form: a draft workout holding a name and an editable
 * list of exercises, the three list edits, the checks run before a workout
 * is created, and the summary figures shown beside the form.
 */
module Draft {
  import Gamification

  datatype Exercise = Exercise(id: string, name: string, sets: int, reps: int, weight: int)

  /** One edit of a single field of an exercise record. */
  datatype FieldUpdate =
    | SetId(id: string)
    | SetName(name: string)
    | SetSets(sets: int)
    | SetReps(reps: int)
    | SetWeight(weight: int)

  /** What the create button leads to. */
  datatype Outcome = NameRequired | IncompleteExercises | Created

  /** A blank exercise row: no name, 3 sets of 12 repetitions, no weight. */
  function NewExercise(id: string): (e: Exercise)
    ensures e.id == id && e.name == ""
    ensures e.sets == 3 && e.reps == 12 && e.weight == 0
  {
    Exercise(id, "", 3, 12, 0)
  }

  /** No two exercises of `s` share an identifier. */
  predicate UniqueIds(s: seq<Exercise>)
  {
    forall i, j :: 0 <= i < j < |s| ==> s[i].id != s[j].id
  }

  /** Whether some exercise of `s` has identifier `id`. */
  predicate HasId(s: seq<Exercise>, id: string)
  {
    exists i :: 0 <= i < |s| && s[i].id == id
  }

  // ---------------------------------------------------------------------
  // Removing an exercise
  // ---------------------------------------------------------------------

  /** The exercises of `s` whose identifier is not `id`, in their order. */
  function Without(s: seq<Exercise>, id: string): (r: seq<Exercise>)
    ensures |r| <= |s|
    ensures forall e :: e in r <==> e in s && e.id != id
    ensures !HasId(s, id) ==> r == s
  {
    if s == [] then []
    else if s[0].id == id then Without(s[1..], id)
    else [s[0]] + Without(s[1..], id)
  }

  /** Filtering distributes over concatenation, so the kept exercises stay in order. */
  lemma {:induction false} WithoutAppend(a: seq<Exercise>, b: seq<Exercise>, id: string)
    ensures Without(a + b, id) == Without(a, id) + Without(b, id)
    decreases |a|
  {
    if a == [] {
      assert a + b == b;
    } else {
      assert (a + b)[1..] == a[1..] + b;
      WithoutAppend(a[1..], b, id);
    }
  }

  /** With unique identifiers, removing a present identifier drops exactly one exercise. */
  lemma {:induction false} WithoutUniqueLength(s: seq<Exercise>, id: string)
    requires UniqueIds(s)
    ensures |Without(s, id)| == if HasId(s, id) then |s| - 1 else |s|
    decreases |s|
  {
    if s != [] {
      assert UniqueIds(s[1..]);
      if s[0].id == id {
        assert !HasId(s[1..], id);
      } else {
        WithoutUniqueLength(s[1..], id);
        assert HasId(s, id) ==> HasId(s[1..], id);
        assert HasId(s[1..], id) ==> HasId(s, id);
      }
    }
  }

  /** Filtering keeps identifiers unique. */
  lemma {:induction false} WithoutKeepsUnique(s: seq<Exercise>, id: string)
    requires UniqueIds(s)
    ensures UniqueIds(Without(s, id))
    decreases |s|
  {
    if s != [] {
      assert UniqueIds(s[1..]);
      WithoutKeepsUnique(s[1..], id);
      if s[0].id != id {
        var rest := Without(s[1..], id);
        forall e | e in rest
          ensures e.id != s[0].id
        {
          var k :| 0 <= k < |s[1..]| && s[1..][k] == e;
          assert s[k + 1] == e;
        }
      }
    }
  }

  /**
   * Two exercises sharing one identifier: the guard lets the removal through
   * and the filter takes both, leaving the list empty.
   */
  lemma RemovalNeedsUniqueIds()
    ensures var s := [NewExercise("7"), NewExercise("7")];
      |s| > 1 && Without(s, "7") == []
  {
  }

  // ---------------------------------------------------------------------
  // Editing an exercise
  // ---------------------------------------------------------------------

  /** `e` with the one field that `u` names set to its value. */
  function ApplyField(e: Exercise, u: FieldUpdate): (r: Exercise)
    ensures !u.SetId? ==> r.id == e.id
    ensures u.SetName? ==> r == e.(name := u.name)
    ensures !u.SetName? ==> r.name == e.name
    ensures u.SetSets? ==> r == e.(sets := u.sets)
    ensures u.SetReps? ==> r == e.(reps := u.reps)
    ensures u.SetWeight? ==> r == e.(weight := u.weight)
    ensures u.SetId? ==> r == e.(id := u.id)
  {
    match u
    case SetId(v) => e.(id := v)
    case SetName(v) => e.(name := v)
    case SetSets(v) => e.(sets := v)
    case SetReps(v) => e.(reps := v)
    case SetWeight(v) => e.(weight := v)
  }

  /** `s` with update `u` applied to every exercise whose identifier is `id`. */
  function Updated(s: seq<Exercise>, id: string, u: FieldUpdate): (r: seq<Exercise>)
    ensures |r| == |s|
    ensures forall i :: 0 <= i < |s| && s[i].id != id ==> r[i] == s[i]
    ensures forall i :: 0 <= i < |s| && s[i].id == id ==> r[i] == ApplyField(s[i], u)
    ensures !u.SetId? ==> forall i :: 0 <= i < |s| ==> r[i].id == s[i].id
  {
    seq(|s|, i requires 0 <= i < |s| => if s[i].id == id then ApplyField(s[i], u) else s[i])
  }

  /** Applying the same edit twice is the same as applying it once. */
  lemma UpdatedIdempotent(s: seq<Exercise>, id: string, u: FieldUpdate)
    ensures Updated(Updated(s, id, u), id, u) == Updated(s, id, u)
  {
    var r := Updated(s, id, u);
    var rr := Updated(r, id, u);
    forall i | 0 <= i < |s|
      ensures rr[i] == r[i]
    {
      if s[i].id == id && r[i].id == id {
        assert u.SetId? ==> u.id == id;
      }
    }
  }

  /** An edit that keeps identifiers commutes with removal: removing after editing removes the same rows. */
  lemma {:induction false} UpdatedThenWithout(s: seq<Exercise>, id: string, u: FieldUpdate)
    requires !u.SetId?
    ensures Without(Updated(s, id, u), id) == Without(s, id)
    decreases |s|
  {
    if s != [] {
      var r := Updated(s, id, u);
      assert r[1..] == Updated(s[1..], id, u);
      UpdatedThenWithout(s[1..], id, u);
    }
  }

  // ---------------------------------------------------------------------
  // Validation
  // ---------------------------------------------------------------------

  /** The characters JavaScript's `String.prototype.trim` removes: white space and line terminators. */
  predicate IsSpace(c: char)
  {
    c == '\t' || c == '\n' || c == '\U{000B}' || c == '\U{000C}' || c == '\r' || c == ' ' ||
    c == '\U{00A0}' || c == '\U{1680}' || ('\U{2000}' <= c <= '\U{200A}') ||
    c == '\U{2028}' || c == '\U{2029}' || c == '\U{202F}' || c == '\U{205F}' ||
    c == '\U{3000}' || c == '\U{FEFF}'
  }

  /** Every character of `s` is white space. */
  predicate AllSpace(s: string)
  {
    forall i :: 0 <= i < |s| ==> IsSpace(s[i])
  }

  /** `s` without leading white space. */
  function TrimStart(s: string): (r: string)
    ensures |r| <= |s| && r == s[|s| - |r|..]
    ensures r != [] ==> !IsSpace(r[0])
    ensures AllSpace(s[..|s| - |r|])
  {
    if s == [] then s
    else if IsSpace(s[0]) then
      var r := TrimStart(s[1..]);
      assert s[..|s| - |r|] == [s[0]] + s[1..][..|s[1..]| - |r|];
      r
    else s
  }

  /** `s` without trailing white space. */
  function TrimEnd(s: string): (r: string)
    ensures |r| <= |s| && r == s[..|r|]
    ensures r != [] ==> !IsSpace(r[|r| - 1])
    ensures AllSpace(s[|r|..])
  {
    if s == [] then s
    else if IsSpace(s[|s| - 1]) then
      var r := TrimEnd(s[..|s| - 1]);
      assert s[|r|..] == s[..|s| - 1][|r|..] + [s[|s| - 1]];
      r
    else s
  }

  /**
   * `s` without white space at either end: a contiguous piece of `s` that
   * neither starts nor ends with white space, and everything cut off on
   * either side is white space.
   */
  function Trim(s: string): (r: string)
    ensures var i := |s| - |TrimStart(s)|;
      i + |r| <= |s| && r == s[i..i + |r|] && AllSpace(s[..i]) && AllSpace(s[i + |r|..])
    ensures r != [] ==> !IsSpace(r[0]) && !IsSpace(r[|r| - 1])
  {
    var t := TrimStart(s);
    var r := TrimEnd(t);
    SliceOfSuffix(s, |s| - |t|, |r|);
    assert r != [] ==> r[0] == t[0];
    r
  }

  /** Cutting `n` characters off the front of the suffix of `s` from `i` on. */
  lemma SliceOfSuffix(s: string, i: nat, n: nat)
    requires i + n <= |s|
    ensures s[i..][..n] == s[i..i + n]
    ensures s[i..][n..] == s[i + n..]
  {
  }

  /** Trimming leaves nothing exactly when the string is all white space. */
  lemma TrimEmpty(s: string)
    ensures Trim(s) == "" <==> AllSpace(s)
  {
    var r := Trim(s);
    var i := |s| - |TrimStart(s)|;
    if r == "" {
      forall k | 0 <= k < |s|
        ensures IsSpace(s[k])
      {
        if k < i {
          assert s[..i][k] == s[k];
        } else {
          assert s[i..][k - i] == s[k];
        }
      }
    } else {
      assert s[i] == r[0];
    }
  }

  /** The check run when the create button is pressed, in the order the form applies it. */
  function Validate(workoutName: string, exercises: seq<Exercise>): (r: Outcome)
    ensures r == NameRequired <==> AllSpace(workoutName)
    ensures r == IncompleteExercises <==>
      !AllSpace(workoutName) && exists i :: 0 <= i < |exercises| && AllSpace(exercises[i].name)
    ensures r == Created <==>
      !AllSpace(workoutName) && forall i :: 0 <= i < |exercises| ==> !AllSpace(exercises[i].name)
  {
    TrimEmpty(workoutName);
    if Trim(workoutName) == "" then NameRequired
    else if exists i :: 0 <= i < |exercises| && Trim(exercises[i].name) == "" then
      var i :| 0 <= i < |exercises| && Trim(exercises[i].name) == "";
      TrimEmpty(exercises[i].name);
      IncompleteExercises
    else
      assert forall i :: 0 <= i < |exercises| ==> !AllSpace(exercises[i].name) by {
        forall i | 0 <= i < |exercises|
          ensures !AllSpace(exercises[i].name)
        {
          TrimEmpty(exercises[i].name);
        }
      }
      Created
  }

  /** A draft straight from the form's initial state is rejected: its one exercise has no name. */
  lemma FreshDraftIsIncomplete(workoutName: string)
    requires !AllSpace(workoutName)
    ensures Validate(workoutName, [NewExercise("1")]) == IncompleteExercises
  {
    var s := [NewExercise("1")];
    assert AllSpace(s[0].name);
  }

  // ---------------------------------------------------------------------
  // Summary
  // ---------------------------------------------------------------------

  /** Estimated duration in minutes: ten per exercise. */
  function EstimatedMinutes(exercises: seq<Exercise>): (m: nat)
    ensures exercises == [] ==> m == 0
    ensures exercises != [] ==> m == EstimatedMinutes(exercises[..|exercises| - 1]) + 10
  {
    |exercises| * 10
  }

  /** Estimated points: ten per exercise. */
  function EstimatedXP(exercises: seq<Exercise>): (x: nat)
    ensures exercises == [] ==> x == 0
    ensures exercises != [] ==> x == EstimatedXP(exercises[..|exercises| - 1]) + 10
  {
    |exercises| * 10
  }

  /**
   * The engine's `completeExercise` operation, issued once per exercise of the
   * draft, awards exactly the estimated points through its own 10-point award.
   */
  lemma {:induction false} EstimateMatchesAwards(s: Gamification.UserStats, exercises: seq<Exercise>)
    ensures Gamification.Run(s, Gamification.Repeat(Gamification.CompleteExerciseOp, |exercises|)).xp
      == s.xp + EstimatedXP(exercises)
    ensures Gamification.Run(s, Gamification.Repeat(Gamification.CompleteExerciseOp, |exercises|)).totalExercises
      == s.totalExercises + |exercises|
    decreases |exercises|
  {
    var op := Gamification.CompleteExerciseOp;
    var n := |exercises|;
    if n == 0 {
      assert Gamification.Repeat(op, 0) == [];
    } else {
      EstimateMatchesAwards(s, exercises[..n - 1]);
      assert Gamification.Repeat(op, n) == Gamification.Repeat(op, n - 1) + [op];
      Gamification.RunSnoc(s, Gamification.Repeat(op, n - 1), op);
    }
  }

  // ---------------------------------------------------------------------
  // The form's state
  // ---------------------------------------------------------------------

  class WorkoutDraft {
    var workoutName: string
    var workoutDescription: string
    var exercises: seq<Exercise>
    var isCreating: bool

    /** The list is never empty and its identifiers are unique. */
    predicate Valid()
      reads this
    {
      |exercises| >= 1 && UniqueIds(exercises)
    }

    /** An empty form with one blank exercise, identifier `1`. */
    constructor()
      ensures workoutName == "" && workoutDescription == ""
      ensures exercises == [NewExercise("1")]
      ensures !isCreating
      ensures Valid()
    {
      workoutName := "";
      workoutDescription := "";
      exercises := [NewExercise("1")];
      isCreating := false;
    }

    /** Appends a blank exercise; `newId` stands for the current time in milliseconds, as text. */
    method AddExercise(newId: string)
      modifies this
      ensures exercises == old(exercises) + [NewExercise(newId)]
      ensures EstimatedMinutes(exercises) == EstimatedMinutes(old(exercises)) + 10
      ensures EstimatedXP(exercises) == EstimatedXP(old(exercises)) + 10
      ensures workoutName == old(workoutName) && workoutDescription == old(workoutDescription)
      ensures isCreating == old(isCreating)
      ensures old(Valid()) && !HasId(old(exercises), newId) ==> Valid()
    {
      exercises := exercises + [NewExercise(newId)];
    }

    /** Removes every exercise with identifier `id`, unless only one exercise is left. */
    method RemoveExercise(id: string)
      modifies this
      ensures exercises == if |old(exercises)| > 1 then Without(old(exercises), id) else old(exercises)
      ensures old(Valid()) ==> Valid()
      ensures old(Valid()) && |old(exercises)| > 1 && HasId(old(exercises), id) ==>
        |exercises| == |old(exercises)| - 1 &&
        EstimatedMinutes(exercises) == EstimatedMinutes(old(exercises)) - 10 &&
        EstimatedXP(exercises) == EstimatedXP(old(exercises)) - 10
      ensures workoutName == old(workoutName) && workoutDescription == old(workoutDescription)
      ensures isCreating == old(isCreating)
    {
      if |exercises| > 1 {
        if Valid() {
          WithoutUniqueLength(exercises, id);
          WithoutKeepsUnique(exercises, id);
        }
        exercises := Without(exercises, id);
      }
    }

    /** Sets one field of every exercise with identifier `id`. */
    method UpdateExercise(id: string, u: FieldUpdate)
      modifies this
      ensures exercises == Updated(old(exercises), id, u)
      ensures !u.SetId? && old(Valid()) ==> Valid()
      ensures workoutName == old(workoutName) && workoutDescription == old(workoutDescription)
      ensures isCreating == old(isCreating)
    {
      exercises := Updated(exercises, id, u);
    }

    /**
     * The create button: rejects a blank workout name first, then any
     * exercise with a blank name, and otherwise marks the draft as being created.
     */
    method HandleCreateWorkout() returns (outcome: Outcome)
      modifies this
      ensures outcome == Validate(old(workoutName), old(exercises))
      ensures isCreating == (old(isCreating) || outcome == Created)
      ensures workoutName == old(workoutName) && workoutDescription == old(workoutDescription)
      ensures exercises == old(exercises)
    {
      if Trim(workoutName) == "" {
        TrimEmpty(workoutName);
        return NameRequired;
      }
      if exists i :: 0 <= i < |exercises| && Trim(exercises[i].name) == "" {
        var i :| 0 <= i < |exercises| && Trim(exercises[i].name) == "";
        TrimEmpty(exercises[i].name);
        return IncompleteExercises;
      }
      isCreating := true;
      return Created;
    }
  }
}

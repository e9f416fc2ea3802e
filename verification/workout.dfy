/**
  The workout page: the entry form (muscle group, exercise, set count and the
  per-set reps and weights as typed), the exercise options of the chosen muscle
  group, the list of past workouts with the exercise names derived from it, and
  the analytics records of one exercise.
  Requests are parameters: each operation that talks to the API receives the
  reply it got (`None` for a failed request).
 */
module Workout {
  import opened Js
  import Analytics
  import ExerciseList

  /** One per-set input. `Hole` is an array slot never written: JavaScript leaves
      holes when an index past the end is assigned. `Undefined` is an element that
      holds `undefined`: copying an array with `[...arr]` turns its holes into such
      elements. The two differ on submit, where `map` skips holes but not `undefined`. */
  datatype Slot = Hole | Undefined | Entry(text: string)

  datatype Form = Form(muscleGroup: string, exercise: string, sets: string, reps: seq<Slot>, weights: seq<Slot>)

  const EmptyForm: Form := Form("", "", "", [], [])

  /** A workout as the API lists it. */
  datatype Logged = Logged(exercise: string, sets: int, reps: seq<int>, weights: seq<real>)

  datatype Page = Page(
    form: Form,
    options: seq<string>,
    past: seq<Logged>,
    allExercises: seq<string>,
    analyticsExercise: string,
    analytics: Option<seq<Analytics.Record>>)

  // ---------------------------------------------------------------------------
  // The exercise table and the muscle-group selector

  const ExerciseTable: map<string, seq<string>> := map[
    "Chest" := ["Bench Press", "Push-ups", "Chest Flyes"],
    "Back" := ["Pull-ups", "Rows", "Deadlifts"],
    "Legs" := ["Squats", "Lunges", "Leg Press"],
    "Shoulders" := ["Shoulder Press", "Lateral Raises", "Front Raises"],
    "Arms" := ["Bicep Curls", "Tricep Extensions", "Hammer Curls"],
    "Core" := ["Planks", "Crunches", "Russian Twists"]
  ]

  /** `exerciseData[group] || []` */
  function Options(group: string): (r: seq<string>)
    ensures group in ExerciseTable ==> r == ExerciseTable[group]
    ensures group !in ExerciseTable ==> r == []
  {
    if group in ExerciseTable then ExerciseTable[group] else []
  }

  /** Six muscle groups of three exercises each. */
  lemma ExerciseTableShape()
    ensures ExerciseTable.Keys == {"Chest", "Back", "Legs", "Shoulders", "Arms", "Core"}
    ensures |ExerciseTable| == 6
    ensures forall g :: g in ExerciseTable ==> |ExerciseTable[g]| == 3
    ensures Options("Legs") == ["Squats", "Lunges", "Leg Press"]
    ensures Options("") == []
  {
    assert ExerciseTable.Keys == {"Chest", "Back", "Legs", "Shoulders", "Arms", "Core"};
  }

  /** `handleMuscleGroupChange`: choose the group, forget the exercise, offer the
      group's exercises. */
  function MuscleGroupChange(p: Page, group: string): (r: Page)
    ensures r.form.muscleGroup == group && r.form.exercise == ""
    ensures r.options == Options(group)
    ensures r.form.sets == p.form.sets && r.form.reps == p.form.reps && r.form.weights == p.form.weights
    ensures r.past == p.past && r.allExercises == p.allExercises
    ensures r.analyticsExercise == p.analyticsExercise && r.analytics == p.analytics
  {
    p.(form := p.form.(muscleGroup := group, exercise := ""), options := Options(group))
  }

  /** `handleExerciseChange` */
  function ExerciseChange(f: Form, exercise: string): (r: Form)
    ensures r.exercise == exercise
    ensures r.muscleGroup == f.muscleGroup && r.sets == f.sets && r.reps == f.reps && r.weights == f.weights
  {
    f.(exercise := exercise)
  }

  // ---------------------------------------------------------------------------
  // handleInputChange and the set count

  /** The largest length `Array(n)` accepts. */
  const MaxArrayLength: int := 0xFFFF_FFFF

  /** `Array(n).fill('')` */
  function Blank(n: nat): (r: seq<Slot>)
    ensures |r| == n
    ensures forall i :: 0 <= i < n ==> r[i] == Entry("")
  {
    seq(n, _ => Entry(""))
  }

  datatype Field = MuscleGroupField | ExerciseField | SetsField

  /** `RangeError` is what `Array(n)` throws for a negative or oversized length. */
  datatype Result<T> = Ok(value: T) | RangeError

  /** `handleInputChange`: a change of `sets` keeps the text as typed and replaces
      both per-set arrays by `parseInt(text) || 0` empty entries; any other field is
      just overwritten. */
  function HandleInputChange(f: Form, field: Field, value: string): (r: Result<Form>)
    ensures field != SetsField ==> r.Ok? && r.value.sets == f.sets && r.value.reps == f.reps && r.value.weights == f.weights
    ensures field == MuscleGroupField ==> r.value.muscleGroup == value && r.value.exercise == f.exercise
    ensures field == ExerciseField ==> r.value.exercise == value && r.value.muscleGroup == f.muscleGroup
    ensures field == SetsField ==> (r.Ok? <==> 0 <= ParseIntOrZero(value) <= MaxArrayLength)
    ensures field == SetsField && r.Ok? ==>
              && r.value.sets == value
              && r.value.muscleGroup == f.muscleGroup && r.value.exercise == f.exercise
              && |r.value.reps| == ParseIntOrZero(value) && |r.value.weights| == ParseIntOrZero(value)
              && (forall i :: 0 <= i < |r.value.reps| ==> r.value.reps[i] == Entry(""))
              && (forall i :: 0 <= i < |r.value.weights| ==> r.value.weights[i] == Entry(""))
  {
    match field
    case MuscleGroupField => Ok(f.(muscleGroup := value))
    case ExerciseField => Ok(f.(exercise := value))
    case SetsField =>
      var n := ParseIntOrZero(value);
      if 0 <= n <= MaxArrayLength then Ok(f.(sets := value, reps := Blank(n), weights := Blank(n)))
      else RangeError
  }

  /** The form agrees with its own set count: both arrays are as long as
      `parseInt(sets) || 0`. */
  predicate Consistent(f: Form) {
    var n := ParseIntOrZero(f.sets);
    n >= 0 && |f.reps| == n && |f.weights| == n
  }

  /** The cleared form agrees with its empty set count. */
  lemma EmptyFormConsistent()
    ensures Consistent(EmptyForm)
  {
    ParseIntNoDigits(EmptyForm.sets);
  }

  /** Typing the decimal text of `n` as the set count leaves exactly `n` empty reps and
      `n` empty weights, whatever was entered before. */
  lemma SetsChangeToDecimal(f: Form, n: nat)
    requires n <= MaxArrayLength
    ensures var r := HandleInputChange(f, SetsField, Decimal(n));
            && r.Ok? && Consistent(r.value)
            && |r.value.reps| == n && |r.value.weights| == n
  {
    ParseIntDecimal(n, []);
    assert Decimal(n) + [] == Decimal(n);
  }

  /** A negative set count makes `Array` throw. */
  lemma NegativeSetsThrows(f: Form, n: nat)
    requires n > 0
    ensures HandleInputChange(f, SetsField, "-" + Decimal(n)) == RangeError
  {
    var s := "-" + Decimal(n);
    NothingToTrim(s);
    assert s[1..] == Decimal(n) + [];
    assert !HexPrefixed(s[1..]);
    DigitPrefixOfDigits(Decimal(n), [], 10);
    DecimalValue(n);
    assert ReadDigits(s[1..], 10) == Some(n);
  }

  /** A set count that is not a number gives no rows at all. */
  lemma NonNumericSetsIsZero(f: Form, value: string)
    requires forall i :: 0 <= i < |value| ==> !IsDigit(value[i])
    ensures var r := HandleInputChange(f, SetsField, value);
            r.Ok? && r.value.reps == [] && r.value.weights == [] && r.value.sets == value
  {
    ParseIntNoDigits(value);
  }

  // ---------------------------------------------------------------------------
  // handleRepsChange / handleWeightChange

  /** What the spread `[...arr]` puts in the copy for one slot. */
  function Copied(s: Slot): (c: Slot)
    ensures s == Hole ==> c == Undefined
    ensures s != Hole ==> c == s
  {
    if s == Hole then Undefined else s
  }

  /** `copy = [...arr]; copy[i] = v`: the copy has no holes left; inside the array one
      slot changes; past its end the array grows to `i + 1`, with new holes between. */
  function SetSlot(arr: seq<Slot>, i: nat, v: string): (r: seq<Slot>)
    ensures |r| == if i < |arr| then |arr| else i + 1
    ensures r[i] == Entry(v)
    ensures forall j :: 0 <= j < |arr| && j != i ==> r[j] == Copied(arr[j])
    ensures forall j :: |arr| <= j < i ==> r[j] == Hole
  {
    var copy := seq(|arr|, j requires 0 <= j < |arr| => Copied(arr[j]));
    if i < |arr| then copy[i := Entry(v)] else copy + seq(i - |arr|, _ => Hole) + [Entry(v)]
  }

  function RepsChange(f: Form, i: nat, v: string): (r: Form)
    ensures r.weights == f.weights
    ensures r.muscleGroup == f.muscleGroup && r.exercise == f.exercise && r.sets == f.sets
    ensures |r.reps| == if i < |f.reps| then |f.reps| else i + 1
    ensures r.reps[i] == Entry(v)
    ensures forall j :: 0 <= j < |f.reps| && j != i ==> r.reps[j] == Copied(f.reps[j])
    ensures forall j :: |f.reps| <= j < i ==> r.reps[j] == Hole
  {
    f.(reps := SetSlot(f.reps, i, v))
  }

  function WeightChange(f: Form, i: nat, v: string): (r: Form)
    ensures r.reps == f.reps
    ensures r.muscleGroup == f.muscleGroup && r.exercise == f.exercise && r.sets == f.sets
    ensures |r.weights| == if i < |f.weights| then |f.weights| else i + 1
    ensures r.weights[i] == Entry(v)
    ensures forall j :: 0 <= j < |f.weights| && j != i ==> r.weights[j] == Copied(f.weights[j])
    ensures forall j :: |f.weights| <= j < i ==> r.weights[j] == Hole
  {
    f.(weights := SetSlot(f.weights, i, v))
  }

  /** Every edit inside the arrays, and every change of group, exercise or set count
      that succeeds, keeps the form consistent. */
  lemma EditsKeepConsistent(f: Form, field: Field, value: string, i: nat, v: string)
    requires Consistent(f)
    ensures HandleInputChange(f, field, value).Ok? ==> Consistent(HandleInputChange(f, field, value).value)
    ensures i < |f.reps| ==> Consistent(RepsChange(f, i, v))
    ensures i < |f.weights| ==> Consistent(WeightChange(f, i, v))
    ensures Consistent(ExerciseChange(f, v))
  {
  }

  /** The page shows the reps and weight inputs whenever the set count text is not
      empty (`workoutData.sets && …`), and they always edit index 0. With the count
      "0" (`Decimal(0)`) the text is not empty but the arrays are, so one keystroke makes the reps
      array longer than the set count. */
  lemma ZeroSetsInputOutgrowsCount()
    ensures var f := HandleInputChange(EmptyForm, SetsField, Decimal(0));
            && f.Ok? && f.value.sets != "" && f.value.reps == []
            && !Consistent(RepsChange(f.value, 0, "5"))
            && |RepsChange(f.value, 0, "5").reps| == 1
  {
    SetsChangeToDecimal(EmptyForm, 0);
  }

  // ---------------------------------------------------------------------------
  // Submitting a workout

  /** The body of `POST /api/workouts`. `None` stands for the `null` JSON writes both
      for `NaN` and for a hole that `map` skipped. */
  datatype Payload = Payload(muscleGroup: string, exercise: string, sets: string, reps: seq<Option<int>>, weights: seq<Option<real>>)

  /** `parseInt(rep || 0)`, which `map` never calls on a hole. */
  function RepValue(s: Slot): Option<int> {
    match s
    case Hole => None
    case Undefined => Some(0)
    case Entry(t) => if t == "" then Some(0) else ParseInt(t)
  }

  /** `parseFloat(weight || 0)`, which `map` never calls on a hole. */
  function WeightValue(s: Slot, num: NumberSyntax): Option<real> {
    match s
    case Hole => None
    case Undefined => Some(0.0)
    case Entry(t) => if t == "" then Some(0.0) else num.parseFloat(t)
  }

  function ToPayload(f: Form, num: NumberSyntax): (p: Payload)
    ensures p.muscleGroup == f.muscleGroup && p.exercise == f.exercise && p.sets == f.sets
    ensures |p.reps| == |f.reps| && |p.weights| == |f.weights|
    ensures forall i :: 0 <= i < |f.reps| && f.reps[i] in {Undefined, Entry("")} ==> p.reps[i] == Some(0)
    ensures forall i :: 0 <= i < |f.weights| && f.weights[i] in {Undefined, Entry("")} ==> p.weights[i] == Some(0.0)
    ensures forall i :: 0 <= i < |f.reps| && f.reps[i] == Hole ==> p.reps[i] == None
    ensures forall i :: 0 <= i < |f.weights| && f.weights[i] == Hole ==> p.weights[i] == None
    ensures forall i :: 0 <= i < |f.reps| && f.reps[i].Entry? && f.reps[i].text != "" ==> p.reps[i] == ParseInt(f.reps[i].text)
    ensures forall i :: 0 <= i < |f.weights| && f.weights[i].Entry? && f.weights[i].text != "" ==>
              p.weights[i] == num.parseFloat(f.weights[i].text)
  {
    Payload(f.muscleGroup, f.exercise, f.sets,
            seq(|f.reps|, i requires 0 <= i < |f.reps| => RepValue(f.reps[i])),
            seq(|f.weights|, i requires 0 <= i < |f.weights| => WeightValue(f.weights[i], num)))
  }

  /** Reps typed as decimal numbers arrive as those numbers. */
  lemma PayloadReadsDecimals(f: Form, num: NumberSyntax, i: nat, n: nat)
    requires i < |f.reps| && f.reps[i] == Entry(Decimal(n))
    ensures ToPayload(f, num).reps[i] == Some(n)
  {
    ParseIntDecimal(n, []);
    assert Decimal(n) + [] == Decimal(n);
  }

  /** Typing the third rep into an empty list leaves two holes, which the post sends as
      `null`; typing again copies the array, which turns those holes into `undefined`,
      and the post sends them as 0. */
  lemma HolesThenUndefined(f: Form, num: NumberSyntax)
    requires f.reps == []
    ensures var g := RepsChange(f, 2, Decimal(5));
            && ToPayload(g, num).reps == [None, None, Some(5)]
            && ToPayload(RepsChange(g, 2, Decimal(5)), num).reps == [Some(0), Some(0), Some(5)]
  {
    var five := Entry(Decimal(5));
    assert RepValue(five) == Some(5) by {
      ParseIntDecimal(5, []);
      assert Decimal(5) + [] == Decimal(5);
    }
    var g := RepsChange(f, 2, Decimal(5));
    assert g.reps == [Hole, Hole, five];
    var h := RepsChange(g, 2, Decimal(5));
    assert h.reps == [Undefined, Undefined, five];
  }

  /** A consistent form submits as many reps and weights as its set count says. */
  lemma ConsistentPayload(f: Form, num: NumberSyntax)
    requires Consistent(f)
    ensures |ToPayload(f, num).reps| == ParseIntOrZero(f.sets) == |ToPayload(f, num).weights|
  {
  }

  datatype Submission = Submission(payload: Payload, page: Page, refresh: bool)

  /** `handleSubmit`: post the coerced form; when the post succeeds, clear the form and
      reload the past workouts; when it fails, keep everything as it was. */
  function Submit(p: Page, num: NumberSyntax, posted: bool): (r: Submission)
    ensures r.payload == ToPayload(p.form, num)
    ensures posted ==> r.page == p.(form := EmptyForm) && r.refresh
    ensures !posted ==> r.page == p && !r.refresh
    ensures r.page.options == p.options && r.page.past == p.past && r.page.analytics == p.analytics
  {
    Submission(ToPayload(p.form, num), if posted then p.(form := EmptyForm) else p, posted)
  }

  /** After a successful post the form is consistent again, whatever it held before. */
  lemma SubmitLeavesConsistentForm(p: Page, num: NumberSyntax)
    ensures Consistent(Submit(p, num, true).page.form)
  {
    EmptyFormConsistent();
  }

  // ---------------------------------------------------------------------------
  // Past workouts and analytics

  function ExerciseNames(ws: seq<Logged>): (names: seq<string>)
    ensures |names| == |ws|
    ensures forall i :: 0 <= i < |ws| ==> names[i] == ws[i].exercise
  {
    seq(|ws|, i requires 0 <= i < |ws| => ws[i].exercise)
  }

  /** `fetchPastWorkouts` together with the effect that derives the exercise options
      from the list: strictly ascending, each name once, exactly the names listed. */
  function FetchPastWorkouts(p: Page, reply: Option<seq<Logged>>): (r: Page)
    ensures reply.None? ==> r == p
    ensures reply.Some? ==>
              && r == p.(past := reply.value, allExercises := r.allExercises)
              && ExerciseList.Ascending(r.allExercises)
              && (forall x :: x in r.allExercises <==> exists i :: 0 <= i < |reply.value| && reply.value[i].exercise == x)
  {
    match reply
    case None => p
    case Some(ws) =>
      var names := ExerciseNames(ws);
      var all := ExerciseList.UniqueSorted(names);
      assert forall x :: x in all <==> x in ExerciseList.Elems(names);
      p.(past := ws, allExercises := all)
  }

  /** `fetchAnalytics`: nothing is requested while no exercise is chosen; a failed
      request keeps the previous data. */
  function FetchAnalytics(p: Page, reply: Option<seq<Analytics.Record>>): (r: Page)
    ensures p.analyticsExercise == "" || reply.None? ==> r == p
    ensures p.analyticsExercise != "" && reply.Some? ==> r == p.(analytics := reply)
  {
    if p.analyticsExercise == "" then p
    else match reply
      case None => p
      case Some(_) => p.(analytics := reply)
  }
}

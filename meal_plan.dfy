/**
 * The deterministic rules of the seven-day meal plan: how the
 * meals-per-day setting is read, which meal types a day still needs, how
 * large the next batch is, and how generated meals are counted per type.
 */
module MealPlan {
  import opened Wrappers
  import opened Text
  import opened Json

  /** Meals requested from the model at most per round. */
  const BatchSize: nat := 3
  /** Length of a multi-day plan. */
  const TotalDays: nat := 7
  /** The setting used when the profile has none. */
  const DefaultMealsPerDay: string := "3"

  datatype Slot = Breakfast | Lunch | Dinner | Snack

  function SlotName(s: Slot): string {
    match s
    case Breakfast => "Breakfast"
    case Lunch => "Lunch"
    case Dinner => "Dinner"
    case Snack => "Snack"
  }

  /** Position of a slot in the order the planner lists needed types. */
  function SlotRank(s: Slot): nat {
    match s
    case Breakfast => 0
    case Lunch => 1
    case Dinner => 2
    case Snack => 3
  }

  function SlotNames(slots: seq<Slot>): (names: seq<string>)
    ensures |names| == |slots|
    ensures forall i :: 0 <= i < |slots| ==> names[i] == SlotName(slots[i])
  {
    seq(|slots|, i requires 0 <= i < |slots| => SlotName(slots[i]))
  }

  /** The counters of the three main meals, each of which a day needs once. */
  datatype Mains = Mains(breakfast: nat, lunch: nat, dinner: nat)

  /** A day's counters, one per meal type: the main meals and the snacks. */
  datatype Tally = Tally(mains: Mains, snack: nat) {
    function Count(s: Slot): nat {
      match s
      case Breakfast => mains.breakfast
      case Lunch => mains.lunch
      case Dinner => mains.dinner
      case Snack => snack
    }

    /** `sum(meals_by_day[day].values())` */
    function Total(): nat {
      mains.breakfast + mains.lunch + mains.dinner + snack
    }

    /** One more meal of type `s`; the other counters are unchanged. */
    function Bump(s: Slot): (t: Tally)
      ensures t.Count(s) == Count(s) + 1
      ensures forall o :: o != s ==> t.Count(o) == Count(o)
      ensures t.Total() == Total() + 1
    {
      match s
      case Breakfast => this.(mains := mains.(breakfast := mains.breakfast + 1))
      case Lunch => this.(mains := mains.(lunch := mains.lunch + 1))
      case Dinner => this.(mains := mains.(dinner := mains.dinner + 1))
      case Snack => this.(snack := snack + 1)
    }

    /** `if meal_type in counters: counters[meal_type] += 1` for one recorded meal. */
    function Record(meal: Json): Tally {
      match RecordedSlot(meal)
      case Some(s) => Bump(s)
      case None => this
    }
  }

  const Zero: Tally := Tally(Mains(0, 0, 0), 0)

  // ---------------------------------------------------- meals per day

  /**
   * The profile's meals-per-day setting as a number: a missing or empty
   * setting counts as "3", "5+" is 5, anything `int()` accepts is its
   * value, and anything else falls back to 3.
   */
  function NormalizeMealsPerDay(setting: Option<string>): (n: int)
    ensures setting == Some("5+") ==> n == 5
    ensures n != 3 && n != 5 ==> setting.Some? && ParseInt(setting.value) == Some(n)
    ensures setting.Some? && setting.value != "5+" && ParseInt(setting.value).None? ==> n == 3
    ensures setting.Some? && setting.value != "5+" && ParseInt(setting.value).Some? ==>
              n == ParseInt(setting.value).value
  {
    var s := if setting.None? || setting.value == [] then DefaultMealsPerDay else setting.value;
    if s == "5+" then 5
    else
      match ParseInt(s)
      case Some(v) => v
      case None => 3
  }

  /** Five or more meals a day selects the seven-day plan. */
  predicate IsMultiDay(mealsPerDay: int) {
    mealsPerDay >= 5
  }

  /** `int("3")` is 3, so the default setting means three meals. */
  lemma DefaultIsThree()
    ensures NormalizeMealsPerDay(None) == 3
    ensures NormalizeMealsPerDay(Some("")) == 3
    ensures !IsMultiDay(NormalizeMealsPerDay(None))
  {
    DecimalDigit(3);
  }

  lemma {:induction false} DecimalDigit(n: nat)
    requires n < 10
    ensures ParseInt([DigitChar(n)]) == Some(n)
  {
    ParseUnsigned(n);
  }

  /** Every integer written out in decimal is read back as itself. */
  lemma {:induction false} NormalizeDecimal(n: int)
    ensures NormalizeMealsPerDay(Some(IntToString(n))) == n
    ensures IsMultiDay(NormalizeMealsPerDay(Some(IntToString(n)))) <==> n >= 5
  {
    var s := IntToString(n);
    ParseIntRoundTrip(n);
    assert s != "5+" by {
      if n >= 0 {
        assert AllDigits(s);
        assert !IsDigit('+');
      } else {
        assert s[0] == '-';
      }
    }
  }

  /** The "5+" choice selects the seven-day plan; a word that is no number does not. */
  lemma PlusIsFive()
    ensures NormalizeMealsPerDay(Some("5+")) == 5
    ensures IsMultiDay(NormalizeMealsPerDay(Some("5+")))
    ensures NormalizeMealsPerDay(Some("many")) == 3
  {
    ParseRejectsNonDigit("many");
  }

  /**
   * A setting that starts with neither a sign nor a digit, such as a word,
   * is no number: the plan falls back to three meals a day.
   */
  lemma {:induction false} WordIsThree(setting: string)
    requires setting != [] && !IsSpace(setting[0]) && !IsSpace(setting[|setting| - 1])
    requires !IsDigit(setting[0]) && setting[0] != '-' && setting[0] != '+'
    ensures NormalizeMealsPerDay(Some(setting)) == 3
    ensures !IsMultiDay(NormalizeMealsPerDay(Some(setting)))
  {
    ParseRejectsNonDigit(setting);
  }

  // ---------------------------------------------------- needed types

  /**
   * The meal types a day still needs: each main meal until it has one,
   * and snacks while fewer than `mealsPerDay - 3` have been made (only
   * when more than three meals a day are asked for). Listed in the order
   * breakfast, lunch, dinner, snack.
   */
  function NeededTypes(t: Tally, mealsPerDay: int): (needed: seq<Slot>)
    ensures Breakfast in needed <==> t.Count(Breakfast) == 0
    ensures Lunch in needed <==> t.Count(Lunch) == 0
    ensures Dinner in needed <==> t.Count(Dinner) == 0
    ensures Snack in needed <==> mealsPerDay > 3 && t.Count(Snack) < mealsPerDay - 3
    ensures forall i, j :: 0 <= i < j < |needed| ==> SlotRank(needed[i]) < SlotRank(needed[j])
    ensures |needed| <= 4
  {
    (if t.Count(Breakfast) == 0 then [Breakfast] else [])
    + (if t.Count(Lunch) == 0 then [Lunch] else [])
    + (if t.Count(Dinner) == 0 then [Dinner] else [])
    + (if t.Count(Snack) < mealsPerDay - 3 && mealsPerDay > 3 then [Snack] else [])
  }

  // ---------------------------------------------------- batch planning

  /** `meals_per_day * total_days`: the number of meals the whole plan stops at. */
  function PlanLimit(mealsPerDay: int): int {
    mealsPerDay * 7
  }

  /** What the planner does next for the current day. */
  datatype Step = EndDay | Batch(size: nat, types: seq<Slot>)

  /**
   * One round of the day loop: the loop runs while the day is short of
   * `mealsPerDay` and the plan is short of `mealsPerDay * 7`; a round
   * with nothing needed ends the day; otherwise the batch asks for as
   * many meals as are needed, at most three, and no more than the day
   * still lacks.
   */
  function PlanStep(t: Tally, mealsPerDay: int, planned: nat): (step: Step)
    ensures step.Batch? <==>
      t.Total() < mealsPerDay && planned < PlanLimit(mealsPerDay) && NeededTypes(t, mealsPerDay) != []
    ensures step.Batch? ==> step.types == NeededTypes(t, mealsPerDay)
    ensures step.Batch? ==> 1 <= step.size <= BatchSize
    ensures step.Batch? ==> step.size <= |step.types| && step.size <= mealsPerDay - t.Total()
    ensures step.Batch? ==>
      step.size == BatchSize || step.size == |step.types| || step.size == mealsPerDay - t.Total()
  {
    var needed := NeededTypes(t, mealsPerDay);
    if t.Total() < mealsPerDay && planned < PlanLimit(mealsPerDay) && needed != [] then
      Batch(Min3(|needed|, BatchSize, mealsPerDay - t.Total()), needed)
    else EndDay
  }

  function Min3(a: int, b: int, c: int): (m: int)
    ensures m <= a && m <= b && m <= c
    ensures m == a || m == b || m == c
  {
    if a <= b && a <= c then a else if b <= c then b else c
  }

  // ---------------------------------------------------- bookkeeping

  /** The counter a `meal_type` value feeds: only the four exact names count. */
  function SlotOf(mealType: Json): (s: Option<Slot>)
    ensures s.Some? ==> mealType == JStr(SlotName(s.value))
    ensures forall o :: mealType == JStr(SlotName(o)) ==> s == Some(o)
  {
    if mealType == JStr("Breakfast") then Some(Breakfast)
    else if mealType == JStr("Lunch") then Some(Lunch)
    else if mealType == JStr("Dinner") then Some(Dinner)
    else if mealType == JStr("Snack") then Some(Snack)
    else None
  }

  /** `meal.get('meal_type', 'General')` */
  function MealTypeOf(meal: Dict): Json {
    GetOr(meal, "meal_type", JStr("General"))
  }

  /** Whether `meal` is an object whose type is exactly the name of `s`. */
  predicate IsOfSlot(meal: Json, s: Slot) {
    meal.JObj? && MealTypeOf(meal.fields) == JStr(SlotName(s))
  }

  /** How many of `meals` are of type `s`: the reference count for the counters. */
  function CountOf(meals: seq<Json>, s: Slot): nat
    ensures CountOf(meals, s) <= |meals|
  {
    if meals == [] then 0
    else CountOf(meals[..|meals| - 1], s) + (if IsOfSlot(meals[|meals| - 1], s) then 1 else 0)
  }

  /** The counters a day holds after `meals` were recorded, starting from zero. */
  function Counted(meals: seq<Json>): Tally {
    Tally(Mains(CountOf(meals, Breakfast), CountOf(meals, Lunch), CountOf(meals, Dinner)), CountOf(meals, Snack))
  }

  /** The slot a recorded meal bumps, if any. */
  function RecordedSlot(meal: Json): Option<Slot> {
    if meal.JObj? then SlotOf(MealTypeOf(meal.fields)) else None
  }

  /**
   * Recording one more meal bumps exactly the counter of its type, and
   * none when its type is not one of the four.
   */
  lemma {:induction false} CountedSnoc(meals: seq<Json>, meal: Json)
    ensures Counted(meals + [meal]) == Counted(meals).Record(meal)
  {
    var ms := meals + [meal];
    assert ms[..|ms| - 1] == meals;
    assert ms[|ms| - 1] == meal;
    forall s: Slot ensures IsOfSlot(meal, s) <==> RecordedSlot(meal) == Some(s) {
      if IsOfSlot(meal, s) {
        assert SlotOf(JStr(SlotName(s))) == Some(s);
      }
    }
  }

  /** The day total counts exactly the meals that carry one of the four types. */
  lemma {:induction false} CountedTotal(meals: seq<Json>)
    ensures Counted(meals).Total() <= |meals|
    ensures Counted(meals).Total() == |meals| <==>
      forall i :: 0 <= i < |meals| ==> RecordedSlot(meals[i]).Some?
    decreases |meals|
  {
    if meals != [] {
      var init := meals[..|meals| - 1];
      var last := meals[|meals| - 1];
      CountedTotal(init);
      CountedSnoc(init, last);
      assert init + [last] == meals;
      if forall i :: 0 <= i < |meals| ==> RecordedSlot(meals[i]).Some? {
        assert forall i :: 0 <= i < |init| ==> RecordedSlot(init[i]).Some? by {
          forall i | 0 <= i < |init| ensures RecordedSlot(init[i]).Some? {
            assert init[i] == meals[i];
          }
        }
        assert RecordedSlot(meals[|meals| - 1]).Some?;
      } else {
        var i :| 0 <= i < |meals| && RecordedSlot(meals[i]).None?;
        if i < |init| {
          assert init[i] == meals[i];
        }
      }
    }
  }

  /** `meal['name'].lower()`: present only for an object whose name is a string. */
  function NameKey(meal: Json): Option<string> {
    if meal.JObj? && Get(meal.fields, "name").Some? && Get(meal.fields, "name").value.JStr? then
      Some(Lower(Get(meal.fields, "name").value.s))
    else None
  }

  /**
   * What the bookkeeping of a generated meal can raise on: `meal.get` on a
   * non-object, `in` on an unhashable type, and `meal['name'].lower()` on
   * a missing or non-string name.
   */
  predicate Recordable(meal: Json) {
    meal.JObj? && Hashable(MealTypeOf(meal.fields)) && NameKey(meal).Some?
  }
}

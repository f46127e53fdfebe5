/**
 * The record types of the nutrition tracker and their derived values:
 * weight and water unit conversions, calorie and water totals, the
 * daily water goal test, and the range validators applied when a record
 * is constructed. Floating point is modelled by exact `real` arithmetic.
 */
module Nutrition {
  import opened Wrappers

  datatype WeightUnit = Kg | Lbs

  datatype WaterUnit = Ml | Liter | Ounce | Cup

  datatype MealType = Breakfast | Lunch | Dinner | Snack

  /** Kilograms in one pound. */
  const LbToKg: real := 0.45359237
  /** Millilitres in one US fluid ounce, one cup and one litre. */
  const OunceToMl: real := 29.5735295625
  const CupToMl: real := 240.0
  const LiterToMl: real := 1000.0

  /** Why a record was refused at construction. */
  datatype Checked<T> = Accepted(value: T) | Rejected(reason: string)

  // ---------------------------------------------------------------- weight

  datatype WeightEntry = WeightEntry(weight: real, unit: WeightUnit, bodyFatPct: Option<real>)

  /** What the field constraints and the body-fat validator admit. */
  predicate ValidWeightEntry(e: WeightEntry) {
    e.weight > 0.0 && (e.bodyFatPct.None? || 0.0 <= e.bodyFatPct.value <= 100.0)
  }

  /**
   * Constructing a weight entry: the weight must be positive and a body-fat
   * percentage, when given, must lie in [0, 100].
   */
  function NewWeightEntry(weight: real, unit: WeightUnit, bodyFatPct: Option<real>): (r: Checked<WeightEntry>)
    ensures r.Accepted? <==> weight > 0.0 && (bodyFatPct.None? || 0.0 <= bodyFatPct.value <= 100.0)
    ensures r.Accepted? ==> r.value == WeightEntry(weight, unit, bodyFatPct) && ValidWeightEntry(r.value)
  {
    if weight <= 0.0 then Rejected("weight must be greater than 0")
    else if bodyFatPct.Some? && (bodyFatPct.value < 0.0 || bodyFatPct.value > 100.0) then
      Rejected("body_fat_pct must be between 0 and 100")
    else Accepted(WeightEntry(weight, unit, bodyFatPct))
  }

  /** The weight in kilograms, whatever unit it was recorded in. */
  function WeightKg(e: WeightEntry): (kg: real)
    ensures e.unit == Kg ==> kg == e.weight
    ensures e.unit == Lbs ==> kg == e.weight * LbToKg
    ensures e.weight > 0.0 ==> kg > 0.0
  {
    if e.unit == Kg then e.weight else e.weight * LbToKg
  }

  /** The weight in pounds, whatever unit it was recorded in. */
  function WeightLbs(e: WeightEntry): (lbs: real)
    ensures e.unit == Lbs ==> lbs == e.weight
    ensures e.unit == Kg ==> lbs * LbToKg == e.weight
    ensures e.weight > 0.0 ==> lbs > 0.0
  {
    if e.unit == Lbs then e.weight else e.weight / LbToKg
  }

  /** The two readings describe the same mass, in either unit. */
  lemma {:induction false} WeightReadingsAgree(e: WeightEntry)
    ensures WeightLbs(e) * LbToKg == WeightKg(e)
  {
    if e.unit == Lbs {
      assert WeightLbs(e) == e.weight;
    }
  }

  /**
   * Reading a kilogram entry in pounds and recording that as a pound entry
   * gives back the original kilograms.
   */
  lemma {:induction false} WeightRoundTrip(kg: real, fat: Option<real>)
    ensures WeightKg(WeightEntry(WeightLbs(WeightEntry(kg, Kg, fat)), Lbs, fat)) == kg
    ensures WeightLbs(WeightEntry(WeightKg(WeightEntry(kg, Lbs, fat)), Kg, fat)) == kg
  {
    var lbs := WeightLbs(WeightEntry(kg, Kg, fat));
    assert lbs * LbToKg == kg;
    var kgOfLbs := WeightKg(WeightEntry(kg, Lbs, fat));
    assert WeightLbs(WeightEntry(kgOfLbs, Kg, fat)) * LbToKg == kg * LbToKg;
  }

  // ------------------------------------------------------------ preferences

  /** The validator on a user's goal weight: positive when present. */
  function CheckTargetWeight(v: Option<real>): (r: Checked<Option<real>>)
    ensures r.Accepted? <==> v.None? || v.value > 0.0
    ensures r.Accepted? ==> r.value == v
  {
    if v.Some? && v.value <= 0.0 then Rejected("target_weight must be greater than 0") else Accepted(v)
  }

  // ----------------------------------------------------------------- water

  datatype WaterEntry = WaterEntry(amount: real, unit: WaterUnit)

  /** Millilitres in one of `u`. */
  function MlPer(u: WaterUnit): (f: real)
    ensures f >= 1.0
  {
    match u
    case Ml => 1.0
    case Liter => LiterToMl
    case Ounce => OunceToMl
    case Cup => CupToMl
  }

  /** The amount in millilitres: the recorded amount scaled by its unit. */
  function AmountMl(e: WaterEntry): (ml: real)
    ensures ml == e.amount * MlPer(e.unit)
    ensures e.unit == Ml ==> ml == e.amount
    ensures e.amount > 0.0 ==> ml >= e.amount
  {
    match e.unit
    case Ml => e.amount
    case Liter => e.amount * LiterToMl
    case Ounce => e.amount * OunceToMl
    case Cup => e.amount * CupToMl
  }

  /** Sum of the entries' millilitres. */
  function TotalMl(entries: seq<WaterEntry>): real {
    if entries == [] then 0.0 else TotalMl(entries[..|entries| - 1]) + AmountMl(entries[|entries| - 1])
  }

  /** Each entry rewritten as the same water in millilitres. */
  function InMl(entries: seq<WaterEntry>): (r: seq<WaterEntry>)
    ensures |r| == |entries|
    ensures forall i :: 0 <= i < |r| ==> r[i] == WaterEntry(AmountMl(entries[i]), Ml)
  {
    seq(|entries|, i requires 0 <= i < |entries| => WaterEntry(AmountMl(entries[i]), Ml))
  }

  /** Logging in any units adds up to the same total as logging the converted millilitres. */
  lemma {:induction false} WaterUnitsAgree(entries: seq<WaterEntry>)
    ensures TotalMl(InMl(entries)) == TotalMl(entries)
    decreases |entries|
  {
    if entries != [] {
      var init := entries[..|entries| - 1];
      var ml := InMl(entries);
      assert ml[..|ml| - 1] == InMl(init);
      WaterUnitsAgree(init);
    }
  }

  lemma {:induction false} TotalMlAppend(a: seq<WaterEntry>, b: seq<WaterEntry>)
    ensures TotalMl(a + b) == TotalMl(a) + TotalMl(b)
    decreases |b|
  {
    if b == [] {
      assert a + b == a;
    } else {
      assert (a + b)[..|a + b| - 1] == a + b[..|b| - 1];
      TotalMlAppend(a, b[..|b| - 1]);
    }
  }

  /** With positive amounts, the total is never negative, and positive once anything is logged. */
  lemma {:induction false} TotalMlPositive(entries: seq<WaterEntry>)
    requires forall i :: 0 <= i < |entries| ==> entries[i].amount > 0.0
    ensures entries != [] ==> TotalMl(entries) > 0.0
    ensures TotalMl(entries) >= 0.0
    decreases |entries|
  {
    if entries != [] {
      TotalMlPositive(entries[..|entries| - 1]);
    }
  }

  /** `meets_goal`: no verdict without a goal, otherwise whether the total reaches it. */
  function MeetsGoal(entries: seq<WaterEntry>, goalMl: Option<real>): (r: Option<bool>)
    ensures r.None? <==> goalMl.None?
    ensures r.Some? ==> (r.value <==> TotalMl(entries) >= goalMl.value)
  {
    if goalMl.None? then None else Some(TotalMl(entries) >= goalMl.value)
  }

  /** Logging more water never turns a met goal into a missed one. */
  lemma {:induction false} MeetsGoalMonotone(entries: seq<WaterEntry>, e: WaterEntry, goalMl: real)
    requires e.amount > 0.0
    requires MeetsGoal(entries, Some(goalMl)) == Some(true)
    ensures MeetsGoal(entries + [e], Some(goalMl)) == Some(true)
  {
    TotalMlAppend(entries, [e]);
    assert [e][..0] == [];
  }

  // -------------------------------------------------------------- calories

  datatype FoodItem = FoodItem(name: string, calories: int)

  /** Constructing a food item: its calories must be positive. */
  function NewFoodItem(name: string, calories: int): (r: Checked<FoodItem>)
    ensures r.Accepted? <==> calories > 0
    ensures r.Accepted? ==> r.value.name == name && r.value.calories == calories
  {
    if calories <= 0 then Rejected("calories must be greater than 0") else Accepted(FoodItem(name, calories))
  }

  predicate AllValid(items: seq<FoodItem>) {
    forall i :: 0 <= i < |items| ==> items[i].calories > 0
  }

  datatype Meal = Meal(mealType: MealType, items: seq<FoodItem>)

  /** `Meal.total_calories`: the sum of its items' calories. */
  function MealCalories(items: seq<FoodItem>): int {
    if items == [] then 0 else MealCalories(items[..|items| - 1]) + items[|items| - 1].calories
  }

  lemma {:induction false} MealCaloriesAppend(a: seq<FoodItem>, b: seq<FoodItem>)
    ensures MealCalories(a + b) == MealCalories(a) + MealCalories(b)
    decreases |b|
  {
    if b == [] {
      assert a + b == a;
    } else {
      assert (a + b)[..|a + b| - 1] == a + b[..|b| - 1];
      MealCaloriesAppend(a, b[..|b| - 1]);
    }
  }

  /** Every item has at least one calorie, so a meal has at least as many calories as items. */
  lemma {:induction false} MealCaloriesBound(items: seq<FoodItem>)
    requires AllValid(items)
    ensures MealCalories(items) >= |items|
    ensures items != [] ==> MealCalories(items) > 0
    decreases |items|
  {
    if items != [] {
      MealCaloriesBound(items[..|items| - 1]);
    }
  }

  /** `DailyLog.total_calories`: the sum of its meals' totals. */
  function DailyCalories(meals: seq<Meal>): int {
    if meals == [] then 0 else DailyCalories(meals[..|meals| - 1]) + MealCalories(meals[|meals| - 1].items)
  }

  /** All the food items of a day, meal after meal. */
  function AllItems(meals: seq<Meal>): seq<FoodItem> {
    if meals == [] then [] else AllItems(meals[..|meals| - 1]) + meals[|meals| - 1].items
  }

  /** The day's total is the sum over every food item eaten that day. */
  lemma {:induction false} DailyCaloriesFlatten(meals: seq<Meal>)
    ensures DailyCalories(meals) == MealCalories(AllItems(meals))
    decreases |meals|
  {
    if meals != [] {
      var init := meals[..|meals| - 1];
      DailyCaloriesFlatten(init);
      MealCaloriesAppend(AllItems(init), meals[|meals| - 1].items);
    }
  }
}
